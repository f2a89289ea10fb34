/** The cached credits and GPA against recomputation, over runs. */
module TichLuyLuu {
  import opened Wrappers
  import opened Collections
  import opened TichLuyDiem
  import opened CoSoDuLieu
  import opened DangKyHocPhan
  import opened LopHocTrongKy
  import opened NhapDiem
  import opened HeThong

  /** Every student's cached values are those of their current graded registrations. */
  ghost predicate TichLuyDung(dm: DanhMuc, db: Db) {
    forall sv :: sv in db.tichLuy ==> db.tichLuy[sv] == TinhTichLuy(CacDong(dm, db, sv))
  }

  ghost predicate TichLuyCua(dm: DanhMuc, db: Db, sv: nat) {
    sv in db.tichLuy && db.tichLuy[sv] == TinhTichLuy(CacDong(dm, db, sv))
  }

  ghost predicate ChamCua(db: Db, d: nat, sv: nat) { DaCham(db, d) && db.dangKys[d].maSinhVien == sv }

  /** Registration d is graded in both states for this student, with the same course and grade, or in neither. */
  ghost predicate ChamGiong(db: Db, r: Db, sv: nat, d: nat) {
    && (ChamCua(db, d, sv) <==> ChamCua(r, d, sv))
    && (ChamCua(db, d, sv) ==> MonCua(db, d) == MonCua(r, d) && db.diems[d].diemZ == r.diems[d].diemZ)
  }

  ghost predicate CungCham(db: Db, r: Db, sv: nat) { forall d :: ChamGiong(db, r, sv, d) }

  lemma CoDongQua(dm: DanhMuc, db: Db, r: Db, sv: nat, x: Dong)
    requires CungCham(db, r, sv)
    ensures CoDong(dm, db, sv, x) <==> CoDong(dm, r, sv, x)
  {
    if CoDong(dm, db, sv, x) {
      var d :| DaCham(db, d) && db.dangKys[d].maSinhVien == sv && DongCua(dm, db, d) == x;
      assert ChamGiong(db, r, sv, d);
      assert DongCua(dm, r, d) == x;
    }
    if CoDong(dm, r, sv, x) {
      var d :| DaCham(r, d) && r.dangKys[d].maSinhVien == sv && DongCua(dm, r, d) == x;
      assert ChamGiong(db, r, sv, d);
      assert DongCua(dm, db, d) == x;
    }
  }

  lemma CungChamCungTichLuy(dm: DanhMuc, db: Db, r: Db, sv: nat)
    requires CungCham(db, r, sv)
    ensures TinhTichLuy(CacDong(dm, db, sv)) == TinhTichLuy(CacDong(dm, r, sv))
  {
    forall x ensures x in CacDong(dm, db, sv) <==> x in CacDong(dm, r, sv) {
      CacDongNghia(dm, db, sv, x);
      CacDongNghia(dm, r, sv, x);
      CoDongQua(dm, db, r, sv, x);
    }
    CacDongCoDinh(dm, db, sv);
    OrderIrrelevant(CacDong(dm, db, sv), CacDong(dm, r, sv));
  }

  /** With the cache untouched, only what is recomputed can differ. */
  lemma CungCachTinh(dm: DanhMuc, db: Db, r: Db)
    requires TichLuyDung(dm, db) && r.tichLuy == db.tichLuy
    ensures TichLuyDung(dm, r) <==>
            forall sv :: sv in db.tichLuy ==> TinhTichLuy(CacDong(dm, r, sv)) == TinhTichLuy(CacDong(dm, db, sv))
  {
  }

  lemma CungChamGiu(dm: DanhMuc, db: Db, r: Db)
    requires r.tichLuy == db.tichLuy
    requires forall sv :: sv in db.tichLuy ==> CungCham(db, r, sv)
    ensures TichLuyDung(dm, r) <==> TichLuyDung(dm, db)
  {
    forall sv | sv in db.tichLuy ensures TinhTichLuy(CacDong(dm, db, sv)) == TinhTichLuy(CacDong(dm, r, sv)) {
      CungChamCungTichLuy(dm, db, r, sv);
    }
  }

  lemma BoChuaCham(db: Db, d: nat, sv: nat)
    requires !DaCham(db, d)
    ensures CungCham(db, BoDangKy(db, d), sv)
  {
  }

  lemma ThemChuaCham(dm: DanhMuc, db: Db, s: nat, ma: nat, sv: nat)
    requires ToanVen(dm, db)
    ensures CungCham(db, ThemDangKy(db, s, ma), sv)
  {
    assert db.dangKyKe !in db.dangKys && db.dangKyKe !in db.diems;
  }

  /** Registrations and grades are the same, and every class with a registration is of the same course. */
  lemma CungMonGiu(dm: DanhMuc, db: Db, r: Db)
    requires r.dangKys == db.dangKys && r.diems == db.diems && r.tichLuy == db.tichLuy
    requires forall d :: d in db.dangKys ==> CungMon(db, r, db.dangKys[d].maLopHocKy)
    ensures TichLuyDung(dm, r) <==> TichLuyDung(dm, db)
  {
    forall sv ensures CungCham(db, r, sv) {
      forall d ensures ChamGiong(db, r, sv, d) {
        assert d in db.dangKys ==> CungMon(db, r, db.dangKys[d].maLopHocKy);
      }
    }
    CungChamGiu(dm, db, r);
  }

  ghost predicate CungMon(db: Db, r: Db, l: nat) {
    (l in db.lops <==> l in r.lops) && (l in db.lops ==> db.lops[l].maMonHoc == r.lops[l].maMonHoc)
  }

  /** Another student's grade is not looked at. */
  lemma NhapDiemNguoiKhac(db: Db, r: Db, d: nat, sv: nat)
    requires r.lops == db.lops && r.dangKys == db.dangKys && d in db.dangKys && db.dangKys[d].maSinhVien != sv
    requires forall e: nat :: e != d ==> (e in r.diems <==> e in db.diems) &&
                                               (e in r.diems ==> r.diems[e] == db.diems[e])
    ensures CungCham(db, r, sv)
  {
    forall e ensures ChamGiong(db, r, sv, e) {
    }
  }

  lemma CungBangCungCham(db: Db, r: Db, sv: nat)
    requires r.lops == db.lops && r.dangKys == db.dangKys && r.diems == db.diems
    ensures CungCham(db, r, sv)
  {
    forall e ensures ChamGiong(db, r, sv, e) {
    }
  }

  lemma TinhLaiDung(dm: DanhMuc, db: Db, g: Db, d: nat)
    requires d in db.dangKys && g.lops == db.lops && g.dangKys == db.dangKys && g.tichLuy == db.tichLuy
    requires forall e: nat :: e != d ==> (e in g.diems <==> e in db.diems) &&
                                               (e in g.diems ==> g.diems[e] == db.diems[e])
    requires db.dangKys[d].maSinhVien in db.tichLuy
    ensures var sv := db.dangKys[d].maSinhVien; var r := TinhLai(dm, g, sv);
            && (TichLuyDung(dm, db) ==> TichLuyDung(dm, r))
            && TichLuyCua(dm, r, sv)
  {
    var sv := db.dangKys[d].maSinhVien;
    var r := TinhLai(dm, g, sv);
    LuuTichLuyNghia(g, sv, TinhTichLuy(CacDong(dm, g, sv)));
    CungBangCungCham(g, r, sv);
    CungChamCungTichLuy(dm, g, r, sv);
    if TichLuyDung(dm, db) {
      forall s | s in r.tichLuy ensures r.tichLuy[s] == TinhTichLuy(CacDong(dm, r, s)) {
        if s != sv {
          NhapDiemNguoiKhac(db, r, d, s);
          CungChamCungTichLuy(dm, db, r, s);
        }
      }
    }
  }

  lemma GhiDiemDung(dm: DanhMuc, db: Db, d: nat, diem: DiemHocPhan)
    requires ToanVen(dm, db) && d in db.dangKys
    ensures var sv := db.dangKys[d].maSinhVien; var r := TinhLai(dm, db.(diems := db.diems[d := diem]), sv);
            (TichLuyDung(dm, db) ==> TichLuyDung(dm, r)) && TichLuyCua(dm, r, sv)
  {
    TinhLaiDung(dm, db, db.(diems := db.diems[d := diem]), d);
  }

  /** Entering a grade makes the student's own cache right, and keeps everyone else's. */
  lemma GradingRefreshesCache(dm: DanhMuc, db: Db, quyen: bool, d: nat, x: Option<real>, y: Option<real>)
    requires ToanVen(dm, db)
    ensures var r := NhapDiem.NhapDiem(dm, db, quyen, d, x, y);
            && (TichLuyDung(dm, db) ==> TichLuyDung(dm, r.0))
            && (r.1 == ThanhCong ==> d in db.dangKys && TichLuyCua(dm, r.0, db.dangKys[d].maSinhVien))
  {
    if NhapDiem.NhapDiem(dm, db, quyen, d, x, y).1 == ThanhCong {
      NhapDiemLaTinhLai(dm, db, quyen, d, x, y);
      GhiDiemDung(dm, db, d, DiemMoi(x, y));
    } else {
      NhapDiemThatBai(dm, db, quyen, d, x, y);
    }
  }

  // ---------------------------------------------------------------- taking a graded registration out

  predicate DatZ(z: Option<nat>) { z.Some? && z.value >= DIEM_DAT }

  function TinChiCua(dm: DanhMuc, m: nat): nat { if m in dm.monHocs then dm.monHocs[m].soTinChi else 0 }

  /** The credits and the points a course of tc credits brings at a best grade. */
  function TinChiTu(z: Option<nat>, tc: nat): nat { if DatZ(z) then tc else 0 }
  function DiemTu(z: Option<nat>, tc: nat): nat { if DatZ(z) then Thang4(z.value) * tc else 0 }

  /** The student's grades in the course of registration d, without d's own. */
  function CacZKhac(db: Db, d: nat): set<nat>
    requires DaCham(db, d)
  {
    set e | e in db.dangKys && e != d && DaCham(db, e) && db.dangKys[e].maSinhVien == db.dangKys[d].maSinhVien &&
            MonCua(db, e) == MonCua(db, d) :: db.diems[e].diemZ.value
  }

  /** A course of tc credits falls back from best grade z to zs, next to `khac` points of the other
      courses and c credits in all: it is not lost, and the mean rounds to the same GPA. */
  ghost predicate GiuTichLuy(tc: nat, z: Option<nat>, zs: Option<nat>, c: nat, khac: nat) {
    (tc > 0 && DatZ(z) ==> DatZ(zs)) && CungGpa(c, khac + DiemTu(z, tc), khac + DiemTu(zs, tc))
  }

  /** Taking out graded registration d changes neither credits nor GPA of its student. */
  ghost predicate BoKhongDoi(dm: DanhMuc, db: Db, d: nat)
    requires DaCham(db, d)
  {
    var sv, m := db.dangKys[d].maSinhVien, MonCua(db, d);
    var rows := CacDong(dm, db, sv);
    GiuTichLuy(TinChiCua(dm, m), MaxZ(db, sv, m), MaxCua(CacZKhac(db, d)),
               Total(TinChiDat(rows)), Total(DiemDat(rows) - {m}))
  }

  /** The table of passed courses, read off the best grades. */
  lemma BangTheoZ(dm: DanhMuc, db: Db, sv: nat, k: nat)
    ensures var rows := CacDong(dm, db, sv); var z := MaxZ(db, sv, k);
            && (k in TinChiDat(rows) <==> DatZ(z)) && (k in DiemDat(rows) <==> DatZ(z))
            && (DatZ(z) ==> TinChiDat(rows)[k] == TinChiCua(dm, k) && DiemDat(rows)[k] == DiemTu(z, TinChiCua(dm, k)))
  {
    var rows := CacDong(dm, db, sv);
    BangNghia(rows, k);
    TotNhatNghia(rows, k);
    TotNhatTheoZ(dm, db, sv, k);
  }

  lemma CoZ(dm: DanhMuc, db: Db, sv: nat, k: nat, z: nat)
    ensures z in CacZ(db, sv, k) <==> Dong(k, TinChiCua(dm, k), z) in CacDong(dm, db, sv)
  {
    var r := Dong(k, TinChiCua(dm, k), z);
    CacDongNghia(dm, db, sv, r);
    if z in CacZ(db, sv, k) {
      var e :| e in db.dangKys && DaCham(db, e) && db.dangKys[e].maSinhVien == sv && MonCua(db, e) == k &&
               db.diems[e].diemZ.value == z;
      assert DongCua(dm, db, e) == r;
    }
    if CoDong(dm, db, sv, r) {
      var e :| DaCham(db, e) && db.dangKys[e].maSinhVien == sv && DongCua(dm, db, e) == r;
      assert db.diems[e].diemZ.value == z && MonCua(db, e) == k;
    }
  }

  lemma TinChiCuaDong(dm: DanhMuc, db: Db, sv: nat, r: Dong)
    requires r in CacDong(dm, db, sv)
    ensures r.soTinChi == TinChiCua(dm, r.maMonHoc)
  {
    CacDongNghia(dm, db, sv, r);
  }

  lemma TotNhatTheoZ(dm: DanhMuc, db: Db, sv: nat, k: nat)
    ensures var t := TotNhatCua(CacDong(dm, db, sv), k); var z := MaxZ(db, sv, k);
            (t.None? <==> z.None?) && (t.Some? ==> t.value == Dong(k, TinChiCua(dm, k), z.value))
  {
    var rows := CacDong(dm, db, sv);
    var t, z, zs := TotNhatCua(rows, k), MaxZ(db, sv, k), CacZ(db, sv, k);
    TotNhatNghia(rows, k);
    if t.Some? {
      TinChiCuaDong(dm, db, sv, t.value);
      CoZ(dm, db, sv, k, t.value.z);
    }
    if z.Some? { CoZ(dm, db, sv, k, z.value); }
  }

  lemma ZSauBo(db: Db, d: nat, k: nat)
    requires DaCham(db, d)
    ensures var sv := db.dangKys[d].maSinhVien;
            MaxZ(BoDangKy(db, d), sv, k) == if k == MonCua(db, d) then MaxCua(CacZKhac(db, d)) else MaxZ(db, sv, k)
  {
    var sv, r := db.dangKys[d].maSinhVien, BoDangKy(db, d);
    assert forall e :: DaCham(r, e) <==> DaCham(db, e) && e != d;
    if k == MonCua(db, d) {
      assert CacZ(r, sv, k) == CacZKhac(db, d);
    } else {
      assert CacZ(r, sv, k) == CacZ(db, sv, k);
    }
  }

  lemma TachMon(c: map<nat, nat>, m: nat, v: nat)
    requires m in c ==> c[m] == v
    ensures Total(c) == Total(c - {m}) + if m in c then v else 0
  {
    if m in c { TotalTakeOut(c, m); } else { assert c - {m} == c; }
  }

  lemma MotMonKhacGiu(dm: DanhMuc, db: Db, d: nat, k: nat)
    requires DaCham(db, d) && k != MonCua(db, d)
    ensures var sv := db.dangKys[d].maSinhVien;
            var rows, sau := CacDong(dm, db, sv), CacDong(dm, BoDangKy(db, d), sv);
            && (k in TinChiDat(sau) <==> k in TinChiDat(rows)) && (k in DiemDat(sau) <==> k in DiemDat(rows))
            && (k in TinChiDat(rows) ==> TinChiDat(sau)[k] == TinChiDat(rows)[k])
            && (k in DiemDat(rows) ==> DiemDat(sau)[k] == DiemDat(rows)[k])
  {
    var sv := db.dangKys[d].maSinhVien;
    ZSauBo(db, d, k);
    BangTheoZ(dm, db, sv, k);
    BangTheoZ(dm, BoDangKy(db, d), sv, k);
  }

  lemma BangNgoai(a: map<nat, nat>, b: map<nat, nat>, m: nat)
    requires forall k: nat :: k != m ==> (k in a <==> k in b) && (k in a ==> a[k] == b[k])
    ensures a - {m} == b - {m}
  {
  }

  /** The other courses keep their rows. */
  lemma BangKhacGiu(dm: DanhMuc, db: Db, d: nat)
    requires DaCham(db, d)
    ensures var sv, m := db.dangKys[d].maSinhVien, MonCua(db, d);
            var rows, sau := CacDong(dm, db, sv), CacDong(dm, BoDangKy(db, d), sv);
            TinChiDat(sau) - {m} == TinChiDat(rows) - {m} && DiemDat(sau) - {m} == DiemDat(rows) - {m}
  {
    var sv, m := db.dangKys[d].maSinhVien, MonCua(db, d);
    var rows, sau := CacDong(dm, db, sv), CacDong(dm, BoDangKy(db, d), sv);
    var a, b, p, q := TinChiDat(sau), TinChiDat(rows), DiemDat(sau), DiemDat(rows);
    forall k: nat | k != m
      ensures (k in a <==> k in b) && (k in p <==> k in q) && (k in a ==> a[k] == b[k]) && (k in p ==> p[k] == q[k])
    {
      MotMonKhacGiu(dm, db, d, k);
    }
    BangNgoai(a, b, m);
    BangNgoai(p, q, m);
  }

  lemma TongTheoMotMon(dm: DanhMuc, db: Db, sv: nat, m: nat)
    ensures var rows, z, tc := CacDong(dm, db, sv), MaxZ(db, sv, m), TinChiCua(dm, m);
            && Total(TinChiDat(rows)) == Total(TinChiDat(rows) - {m}) + TinChiTu(z, tc)
            && Total(DiemDat(rows)) == Total(DiemDat(rows) - {m}) + DiemTu(z, tc)
  {
    var rows, z, tc := CacDong(dm, db, sv), MaxZ(db, sv, m), TinChiCua(dm, m);
    BangTheoZ(dm, db, sv, m);
    TachMon(TinChiDat(rows), m, tc);
    TachMon(DiemDat(rows), m, DiemTu(z, tc));
  }

  /** Totals before and after, both as the other courses' plus this course's. */
  lemma TongSauBo(dm: DanhMuc, db: Db, d: nat)
    requires DaCham(db, d)
    ensures var sv, m := db.dangKys[d].maSinhVien, MonCua(db, d);
            var rows, sau, tc := CacDong(dm, db, sv), CacDong(dm, BoDangKy(db, d), sv), TinChiCua(dm, m);
            var z, zs := MaxZ(db, sv, m), MaxCua(CacZKhac(db, d));
            && Total(TinChiDat(rows)) == Total(TinChiDat(rows) - {m}) + TinChiTu(z, tc)
            && Total(TinChiDat(sau)) == Total(TinChiDat(rows) - {m}) + TinChiTu(zs, tc)
            && Total(DiemDat(rows)) == Total(DiemDat(rows) - {m}) + DiemTu(z, tc)
            && Total(DiemDat(sau)) == Total(DiemDat(rows) - {m}) + DiemTu(zs, tc)
            && (DatZ(zs) ==> DatZ(z))
  {
    var sv, m := db.dangKys[d].maSinhVien, MonCua(db, d);
    TongTheoMotMon(dm, db, sv, m);
    TongTheoMotMon(dm, BoDangKy(db, d), sv, m);
    ZSauBo(db, d, m);
    BangKhacGiu(dm, db, d);
    assert CacZKhac(db, d) <= CacZ(db, sv, m);
  }

  lemma GiuMon(khac: nat, z: Option<nat>, zs: Option<nat>, tc: nat)
    requires DatZ(zs) ==> DatZ(z)
    ensures khac + TinChiTu(zs, tc) == khac + TinChiTu(z, tc) <==> (tc > 0 && DatZ(z) ==> DatZ(zs))
  {
  }

  lemma GiuTichLuyNghia(
      tc: nat, z: Option<nat>, zs: Option<nat>, c: nat, khac: nat, khacTc: nat, cs: nat, p: nat, ps: nat)
    requires DatZ(zs) ==> DatZ(z)
    requires c == khacTc + TinChiTu(z, tc) && cs == khacTc + TinChiTu(zs, tc)
    requires p == khac + DiemTu(z, tc) && ps == khac + DiemTu(zs, tc)
    ensures GiuTichLuy(tc, z, zs, c, khac) <==> cs == c && CungGpa(c, p, ps)
  {
    GiuMon(khacTc, z, zs, tc);
  }

  lemma BoKhongDoiNghia(dm: DanhMuc, db: Db, d: nat)
    requires DaCham(db, d)
    ensures var sv := db.dangKys[d].maSinhVien;
            var rows, sau := CacDong(dm, db, sv), CacDong(dm, BoDangKy(db, d), sv);
            var c := Total(TinChiDat(rows));
            BoKhongDoi(dm, db, d) <==>
            Total(TinChiDat(sau)) == c && CungGpa(c, Total(DiemDat(rows)), Total(DiemDat(sau)))
  {
    var sv, m := db.dangKys[d].maSinhVien, MonCua(db, d);
    var rows, sau := CacDong(dm, db, sv), CacDong(dm, BoDangKy(db, d), sv);
    TongSauBo(dm, db, d);
    GiuTichLuyNghia(TinChiCua(dm, m), MaxZ(db, sv, m), MaxCua(CacZKhac(db, d)), Total(TinChiDat(rows)),
                    Total(DiemDat(rows) - {m}), Total(TinChiDat(rows) - {m}), Total(TinChiDat(sau)),
                    Total(DiemDat(rows)), Total(DiemDat(sau)));
  }

  lemma SauBoExact(dm: DanhMuc, db: Db, d: nat)
    requires DaCham(db, d)
    ensures var sv := db.dangKys[d].maSinhVien;
            TinhTichLuy(CacDong(dm, BoDangKy(db, d), sv)) == TinhTichLuy(CacDong(dm, db, sv)) <==> BoKhongDoi(dm, db, d)
  {
    var sv := db.dangKys[d].maSinhVien;
    SameExactly(CacDong(dm, db, sv), CacDong(dm, BoDangKy(db, d), sv));
    BoKhongDoiNghia(dm, db, d);
  }

  // ---------------------------------------------------------------- the steps that remove registrations

  lemma BoNguoiKhac(db: Db, d: nat, s: nat)
    requires d in db.dangKys && db.dangKys[d].maSinhVien != s
    ensures CungCham(db, BoDangKy(db, d), s)
  {
    forall e ensures ChamGiong(db, BoDangKy(db, d), s, e) {
    }
  }

  /** Taking registration d out keeps every cached value right exactly when d is ungraded or the
      student's credits and GPA do not change. */
  lemma BoExact(dm: DanhMuc, db: Db, d: nat)
    requires ToanVen(dm, db) && TichLuyDung(dm, db) && d in db.dangKys
    ensures TichLuyDung(dm, BoDangKy(db, d)) <==> (DaCham(db, d) ==> BoKhongDoi(dm, db, d))
  {
    var r, sv := BoDangKy(db, d), db.dangKys[d].maSinhVien;
    CungCachTinh(dm, db, r);
    assert sv in db.tichLuy;
    forall s | s in db.tichLuy && (s != sv || !DaCham(db, d))
      ensures TinhTichLuy(CacDong(dm, r, s)) == TinhTichLuy(CacDong(dm, db, s))
    {
      if s != sv { BoNguoiKhac(db, d, s); } else { BoChuaCham(db, d, s); }
      CungChamCungTichLuy(dm, db, r, s);
    }
    if DaCham(db, d) { SauBoExact(dm, db, d); }
  }

  lemma ThemGiu(dm: DanhMuc, db: Db, s: nat, ma: nat)
    requires ToanVen(dm, db)
    ensures TichLuyDung(dm, ThemDangKy(db, s, ma)) <==> TichLuyDung(dm, db)
  {
    forall sv | sv in db.tichLuy ensures CungCham(db, ThemDangKy(db, s, ma), sv) { ThemChuaCham(dm, db, s, ma, sv); }
    CungChamGiu(dm, db, ThemDangKy(db, s, ma));
  }

  lemma HuyDangKyLaBo(dm: DanhMuc, db: Db, sv: nat, d: nat, now: int)
    requires ToanVen(dm, db) && HuyDangKy(dm, db, sv, d, now).1 == ThanhCong
    ensures d in db.dangKys && HuyDangKy(dm, db, sv, d, now).0 == BoDangKy(db, d)
  {
  }

  lemma DoiLopLaThay(dm: DanhMuc, db: Db, sv: nat, d: nat, ma: nat, now: int)
    requires ToanVen(dm, db) && DoiLop(dm, db, sv, d, ma, now).1 == ThanhCong
    ensures d in db.dangKys && DoiLop(dm, db, sv, d, ma, now).0 == ThemDangKy(BoDangKy(db, d), sv, ma)
  {
  }

  /** Cancelling a registration. */
  lemma CancelGradedExact(dm: DanhMuc, db: Db, sv: nat, d: nat, now: int)
    requires ToanVen(dm, db) && TichLuyDung(dm, db)
    requires HuyDangKy(dm, db, sv, d, now).1 == ThanhCong
    ensures TichLuyDung(dm, HuyDangKy(dm, db, sv, d, now).0) <==> (DaCham(db, d) ==> BoKhongDoi(dm, db, d))
  {
    HuyDangKyLaBo(dm, db, sv, d, now);
    BoExact(dm, db, d);
  }

  /** Moving to another class: the old grade is dropped, the new registration has none. */
  lemma MoveGradedExact(dm: DanhMuc, db: Db, sv: nat, d: nat, ma: nat, now: int)
    requires ToanVen(dm, db) && TichLuyDung(dm, db)
    requires DoiLop(dm, db, sv, d, ma, now).1 == ThanhCong
    ensures TichLuyDung(dm, DoiLop(dm, db, sv, d, ma, now).0) <==> (DaCham(db, d) ==> BoKhongDoi(dm, db, d))
  {
    DoiLopLaThay(dm, db, sv, d, ma, now);
    BoExact(dm, db, d);
    BoToanVen(dm, db, d);
    ThemGiu(dm, BoDangKy(db, d), sv, ma);
  }

  lemma HuyLopMotNguoi(dm: DanhMuc, db: Db, id: nat, d: nat)
    requires ToanVen(dm, db) && id in db.lops && d in DangKyCuaLop(db, id)
    ensures var sv := db.dangKys[d].maSinhVien; CungCham(BoDangKy(db, d), HuyLop(db, true, id).0, sv)
  {
    var sv, r := db.dangKys[d].maSinhVien, HuyLop(db, true, id).0;
    forall e ensures ChamGiong(BoDangKy(db, d), r, sv, e) {
      if e in DangKyCuaLop(db, id) && db.dangKys[e].maSinhVien == sv { assert db.dangKys[e] == db.dangKys[d]; }
    }
  }

  lemma HuyLopNguoiKhac(dm: DanhMuc, db: Db, id: nat, sv: nat)
    requires ToanVen(dm, db) && id in db.lops
    requires forall d :: d in DangKyCuaLop(db, id) ==> db.dangKys[d].maSinhVien != sv
    ensures CungCham(db, HuyLop(db, true, id).0, sv)
  {
    var r := HuyLop(db, true, id).0;
    forall e ensures ChamGiong(db, r, sv, e) {
      assert e in db.dangKys && db.dangKys[e].maLopHocKy == id ==> e in DangKyCuaLop(db, id);
    }
  }

  /** The student's graded registration in the class, if any, is one that changes nothing. */
  ghost predicate LopKhongDoi(dm: DanhMuc, db: Db, id: nat, sv: nat) {
    forall d :: d in DangKyCuaLop(db, id) && db.dangKys[d].maSinhVien == sv && DaCham(db, d) ==> BoKhongDoi(dm, db, d)
  }

  lemma HuyLopMotSv(dm: DanhMuc, db: Db, id: nat, sv: nat)
    requires ToanVen(dm, db) && id in db.lops
    ensures TinhTichLuy(CacDong(dm, HuyLop(db, true, id).0, sv)) == TinhTichLuy(CacDong(dm, db, sv)) <==>
            LopKhongDoi(dm, db, id, sv)
  {
    var r := HuyLop(db, true, id).0;
    if d :| d in DangKyCuaLop(db, id) && db.dangKys[d].maSinhVien == sv {
      HuyLopMotNguoi(dm, db, id, d);
      CungChamCungTichLuy(dm, BoDangKy(db, d), r, sv);
      if DaCham(db, d) {
        SauBoExact(dm, db, d);
      } else {
        BoChuaCham(db, d, sv);
        CungChamCungTichLuy(dm, db, BoDangKy(db, d), sv);
      }
      assert forall e :: e in DangKyCuaLop(db, id) && db.dangKys[e].maSinhVien == sv ==> e == d;
    } else {
      HuyLopNguoiKhac(dm, db, id, sv);
      CungChamCungTichLuy(dm, db, r, sv);
    }
  }

  lemma TatCaKhongDoi(dm: DanhMuc, db: Db, id: nat)
    requires ToanVen(dm, db)
    ensures (forall sv :: sv in db.tichLuy ==> LopKhongDoi(dm, db, id, sv)) <==>
            forall d :: d in DangKyCuaLop(db, id) && DaCham(db, d) ==> BoKhongDoi(dm, db, d)
  {
    if forall sv :: sv in db.tichLuy ==> LopKhongDoi(dm, db, id, sv) {
      forall d | d in DangKyCuaLop(db, id) && DaCham(db, d) ensures BoKhongDoi(dm, db, d) {
        assert db.dangKys[d].maSinhVien in db.tichLuy;
        assert LopKhongDoi(dm, db, id, db.dangKys[d].maSinhVien);
      }
    }
  }

  /** Cancelling a class: every graded registration in it must be one that changes nothing. */
  lemma CancelClassExact(dm: DanhMuc, db: Db, quyen: bool, id: nat)
    requires ToanVen(dm, db) && TichLuyDung(dm, db) && HuyLop(db, quyen, id).1 == ThanhCong
    ensures TichLuyDung(dm, HuyLop(db, quyen, id).0) <==>
            forall d :: d in DangKyCuaLop(db, id) && DaCham(db, d) ==> BoKhongDoi(dm, db, d)
  {
    var r := HuyLop(db, true, id).0;
    assert HuyLop(db, quyen, id).0 == r && id in db.lops;
    CungCachTinh(dm, db, r);
    forall sv | sv in db.tichLuy
      ensures TinhTichLuy(CacDong(dm, r, sv)) == TinhTichLuy(CacDong(dm, db, sv)) <==> LopKhongDoi(dm, db, id, sv)
    {
      HuyLopMotSv(dm, db, id, sv);
    }
    TatCaKhongDoi(dm, db, id);
  }

  // ---------------------------------------------------------------- every step, every run

  /** The step takes out no graded registration that its student's credits or GPA depend on. */
  ghost predicate BuocGiuTichLuy(dm: DanhMuc, db: Db, lenh: Lenh)
    requires ToanVen(dm, db)
  {
    match lenh
    case LHuyDangKy(sv, d, now) =>
      HuyDangKy(dm, db, sv, d, now).1 == ThanhCong && DaCham(db, d) ==> BoKhongDoi(dm, db, d)
    case LDoiLop(sv, d, ma, now) =>
      DoiLop(dm, db, sv, d, ma, now).1 == ThanhCong && DaCham(db, d) ==> BoKhongDoi(dm, db, d)
    case LHuyLop(quyen, id) =>
      HuyLop(db, quyen, id).1 == ThanhCong ==>
        forall d :: d in DangKyCuaLop(db, id) && DaCham(db, d) ==> BoKhongDoi(dm, db, d)
    case _ => true
  }

  lemma CreateChiThemLop(dm: DanhMuc, db: Db, quyen: bool, mon: nat, hk: nat, yc: YeuCauLop)
    requires db.lopKe !in db.lops
    ensures var r := Create(dm, db, quyen, mon, hk, yc).0;
            && r.dangKys == db.dangKys && r.diems == db.diems && r.tichLuy == db.tichLuy
            && forall l: nat :: l in db.lops ==> l in r.lops && r.lops[l] == db.lops[l]
  {
  }

  lemma CreateGiuTichLuy(dm: DanhMuc, db: Db, quyen: bool, mon: nat, hk: nat, yc: YeuCauLop)
    requires ToanVen(dm, db)
    ensures TichLuyDung(dm, Create(dm, db, quyen, mon, hk, yc).0) <==> TichLuyDung(dm, db)
  {
    CreateChiThemLop(dm, db, quyen, mon, hk, yc);
    CungMonGiu(dm, db, Create(dm, db, quyen, mon, hk, yc).0);
  }

  lemma UpdateGiuTichLuy(dm: DanhMuc, db: Db, quyen: bool, id: nat, yc: YeuCauLop)
    requires ToanVen(dm, db)
    ensures TichLuyDung(dm, Update(dm, db, quyen, id, yc).0) <==> TichLuyDung(dm, db)
  {
    CungMonGiu(dm, db, Update(dm, db, quyen, id, yc).0);
  }

  lemma DeleteGiuTichLuy(dm: DanhMuc, db: Db, quyen: bool, id: nat)
    requires ToanVen(dm, db)
    ensures TichLuyDung(dm, Delete(db, quyen, id).0) <==> TichLuyDung(dm, db)
  {
    if SiSo(db, id) == 0 { LopTrongKhongCoDangKy(db, id); }
    CungMonGiu(dm, db, Delete(db, quyen, id).0);
  }

  lemma ThatBaiGiuNguyen(dm: DanhMuc, db: Db, lenh: Lenh)
    requires ToanVen(dm, db)
    ensures Buoc(dm, db, lenh).1 != ThanhCong ==> Buoc(dm, db, lenh).0 == db && BuocGiuTichLuy(dm, db, lenh)
  {
  }

  /** From a correct cache one step of any kind leads to a correct cache exactly when it takes out no
      graded registration that credits or GPA depend on. */
  lemma StepCacheExact(dm: DanhMuc, db: Db, lenh: Lenh)
    requires ToanVen(dm, db) && TichLuyDung(dm, db)
    ensures TichLuyDung(dm, Buoc(dm, db, lenh).0) <==> BuocGiuTichLuy(dm, db, lenh)
  {
    if Buoc(dm, db, lenh).1 != ThanhCong {
      ThatBaiGiuNguyen(dm, db, lenh);
    } else {
      match lenh
      case LDangKy(s, ma, now) => ThemGiu(dm, db, s, ma);
      case LHuyDangKy(s, d, now) => CancelGradedExact(dm, db, s, d, now);
      case LDoiLop(s, d, ma, now) => MoveGradedExact(dm, db, s, d, ma, now);
      case LCreate(quyen, mon, hk, yc) => CreateGiuTichLuy(dm, db, quyen, mon, hk, yc);
      case LUpdate(quyen, id, yc) => UpdateGiuTichLuy(dm, db, quyen, id, yc);
      case LDelete(quyen, id) => DeleteGiuTichLuy(dm, db, quyen, id);
      case LHuyLop(quyen, id) => CancelClassExact(dm, db, quyen, id);
      case LNhapDiem(quyen, d, x, y) => GradingRefreshesCache(dm, db, quyen, d, x, y);
    }
  }

  ghost predicate ChayGiuTichLuy(dm: DanhMuc, db: Db, lenhs: seq<Lenh>)
    requires ToanVen(dm, db)
    decreases |lenhs|
  {
    if lenhs == [] then true
    else
      StepKeepsIntegrity(dm, db, lenhs[0]);
      BuocGiuTichLuy(dm, db, lenhs[0]) && ChayGiuTichLuy(dm, Buoc(dm, db, lenhs[0]).0, lenhs[1..])
  }

  /** Over every run of such steps, in particular every run that removes no graded registration, the
      cache agrees with recomputation. */
  lemma {:induction false} CacheSound(dm: DanhMuc, db: Db, lenhs: seq<Lenh>)
    requires ToanVen(dm, db) && TichLuyDung(dm, db) && ChayGiuTichLuy(dm, db, lenhs)
    ensures TichLuyDung(dm, Chay(dm, db, lenhs))
    decreases |lenhs|
  {
    if lenhs != [] {
      StepKeepsIntegrity(dm, db, lenhs[0]);
      StepCacheExact(dm, db, lenhs[0]);
      CacheSound(dm, Buoc(dm, db, lenhs[0]).0, lenhs[1..]);
    }
  }
}
