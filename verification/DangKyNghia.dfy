/** What the registrar's steps do, in the fields of the tables: when each of them succeeds, what its
    refusals mean, and what it leaves behind. */
module DangKyNghia {
  import opened Wrappers
  import opened Collections
  import opened LichHoc
  import opened CoSoDuLieu
  import opened DangKyHocPhan
  import opened GhiDanh

  // ---------------------------------------------------------------- rounds

  /** The round is of the term and under way, and it is meant for the student: a round for one intake for
      that intake, whatever faculty it names; otherwise one for a faculty for that faculty. */
  ghost predicate DotMo(d: DotDangKy, s: SinhVien, hk: nat, now: int) {
    && d.maHocKy == hk && d.batDau <= now <= d.ketThuc
    && (d.namNhapHoc == Some(s.namNhapHoc) ||
        (d.namNhapHoc.None? && (d.maKhoaVien.None? || d.maKhoaVien == Some(s.maKhoaVien))))
  }

  ghost predicate MoDangKy(dm: DanhMuc, s: SinhVien, hk: nat, now: int) {
    exists d :: d in dm.dots && DotMo(d, s, hk, now) && d.choPhepDangKy
  }

  ghost predicate MoHuy(dm: DanhMuc, s: SinhVien, hk: nat, now: int) {
    exists d :: d in dm.dots && DotMo(d, s, hk, now) && (d.choPhepDangKy || d.choPhepRut)
  }

  lemma DotNghia(d: DotDangKy, s: SinhVien, hk: nat, now: int)
    ensures DotDangDienRa(d, s, hk, now) <==> DotMo(d, s, hk, now)
  {
  }

  lemma MoNghia(dm: DanhMuc, s: SinhVien, hk: nat, now: int)
    ensures DangMoDangKy(dm, s, hk, now) <==> MoDangKy(dm, s, hk, now)
    ensures DangMoDangKy(dm, s, hk, now) || DangMoRut(dm, s, hk, now) <==> MoHuy(dm, s, hk, now)
  {
    forall d ensures DotDangDienRa(d, s, hk, now) <==> DotMo(d, s, hk, now) { DotNghia(d, s, hk, now); }
    if MoHuy(dm, s, hk, now) {
      var d :| d in dm.dots && DotMo(d, s, hk, now) && (d.choPhepDangKy || d.choPhepRut);
      assert DotDangDienRa(d, s, hk, now);
    }
  }

  // ---------------------------------------------------------------- cancelling

  /** Registration d and its grade are gone, and nothing else has changed. */
  ghost predicate ChiBo(db: Db, r: Db, d: nat) {
    && (forall e :: e in r.dangKys <==> e in db.dangKys && e != d)
    && (forall e :: e in r.dangKys ==> r.dangKys[e] == db.dangKys[e])
    && (forall e :: e in r.diems <==> e in db.diems && e != d)
    && (forall e :: e in r.diems ==> r.diems[e] == db.diems[e])
    && r.lops == db.lops && r.tichLuy == db.tichLuy && r.lopKe == db.lopKe && r.dangKyKe == db.dangKyKe
  }

  ghost predicate CuaMinh(dm: DanhMuc, db: Db, sv: nat, d: nat) {
    sv in dm.sinhViens && d in db.dangKys && db.dangKys[d].maSinhVien == sv
  }

  /** Cancelling succeeds exactly for the student's own registration while some round of the class's term
      that is meant for the student is under way and allows registering or withdrawing. Then that
      registration and its grade are gone and nothing else changes; otherwise nothing changes at all. */
  lemma CancelExact(dm: DanhMuc, db: Db, sv: nat, d: nat, now: int)
    requires ToanVen(dm, db)
    ensures var (r, kc) := HuyDangKy(dm, db, sv, d, now);
            && (kc == ThanhCong <==> CuaMinh(dm, db, sv, d) &&
                                     MoHuy(dm, dm.sinhViens[sv], db.lops[db.dangKys[d].maLopHocKy].maHocKy, now))
            && (kc == KhongTimThay <==> sv !in dm.sinhViens || d !in db.dangKys)
            && (kc == KhongDuocPhep <==> sv in dm.sinhViens && d in db.dangKys && db.dangKys[d].maSinhVien != sv)
            && kc in {ThanhCong, KhongTimThay, KhongDuocPhep, NgoaiDot}
            && (kc == ThanhCong ==> ChiBo(db, r, d)) && (kc != ThanhCong ==> r == db)
  {
    if CuaMinh(dm, db, sv, d) {
      MoNghia(dm, dm.sinhViens[sv], db.lops[db.dangKys[d].maLopHocKy].maHocKy, now);
    }
  }

  // ---------------------------------------------------------------- registering

  /** Some recorded grade of the student in the course is at least `tu` hundredths. */
  ghost predicate DatTu(db: Db, sv: nat, mon: nat, tu: nat) {
    exists d :: d in db.dangKys && d in db.diems && CoDiemTu(db, d, sv, mon, tu)
  }

  ghost predicate CoDiemTu(db: Db, d: nat, sv: nat, mon: nat, tu: nat)
    requires d in db.dangKys && d in db.diems
  {
    var ma := db.dangKys[d].maLopHocKy;
    && db.dangKys[d].maSinhVien == sv && ma in db.lops && db.lops[ma].maMonHoc == mon
    && db.diems[d].diemZ.Some? && db.diems[d].diemZ.value >= tu
  }

  lemma MaxZNghia(db: Db, sv: nat, mon: nat, tu: nat)
    ensures var z := MaxZ(db, sv, mon); z.Some? && z.value >= tu <==> DatTu(db, sv, mon, tu)
  {
    var z := MaxZ(db, sv, mon);
    if DatTu(db, sv, mon, tu) {
      var d :| d in db.dangKys && d in db.diems && CoDiemTu(db, d, sv, mon, tu);
      var diem: nat := db.diems[d].diemZ.value;
      assert diem in CacZ(db, sv, mon);
    }
    if z.Some? && z.value >= tu {
      var d :| d in db.dangKys && DaCham(db, d) && db.dangKys[d].maSinhVien == sv && MonCua(db, d) == mon &&
               db.diems[d].diemZ.value == z.value;
      assert CoDiemTu(db, d, sv, mon, tu);
    }
  }

  /** The first entry of the course in the student's curriculum, if there is one, lies in a later
      curriculum term than the one the student has reached. */
  ghost predicate VuotKy(dm: DanhMuc, sv: nat, hk: nat, mon: nat)
    requires sv in dm.sinhViens && hk in dm.hocKys
  {
    var ds := KhungCua(dm, dm.sinhViens[sv]);
    exists i :: 0 <= i < |ds| && ds[i].maMonHoc == mon && ds[i].kyHoc > KyDangKy(dm, sv, hk) &&
                forall j :: 0 <= j < i ==> ds[j].maMonHoc != mon
  }

  lemma {:induction false} TrongKhungNghia(ds: seq<KhungMon>, mon: nat, ky: int)
    ensures TrongKhung(ds, mon).Some? && TrongKhung(ds, mon).value.kyHoc > ky <==>
            exists i :: 0 <= i < |ds| && ds[i].maMonHoc == mon && ds[i].kyHoc > ky &&
                        forall j :: 0 <= j < i ==> ds[j].maMonHoc != mon
  {
    if ds != [] {
      var con := ds[1..];
      TrongKhungNghia(con, mon, ky);
      assert forall j :: 0 < j < |ds| ==> ds[j] == con[j - 1];
      if ds[0].maMonHoc != mon {
        if i :| 0 <= i < |con| && con[i].maMonHoc == mon && con[i].kyHoc > ky &&
                forall j :: 0 <= j < i ==> con[j].maMonHoc != mon {
          assert ds[i + 1] == con[i];
        }
        if i :| 0 <= i < |ds| && ds[i].maMonHoc == mon && ds[i].kyHoc > ky &&
                forall j :: 0 <= j < i ==> ds[j].maMonHoc != mon {
          assert ds[i] == con[i - 1] && forall j :: 0 <= j < i - 1 ==> con[j] == ds[j + 1];
        }
      }
    }
  }

  /** What the student's record must say: no grade of 7.00 or more in the course, a grade of 4.00 or more in
      its prerequisite, and for a required course of a later curriculum term some earlier attempt. */
  ghost predicate HoSoDu(dm: DanhMuc, db: Db, sv: nat, mon: nat, hk: nat)
    requires sv in dm.sinhViens && mon in dm.monHocs && hk in dm.hocKys
  {
    && !DatTu(db, sv, mon, 700)
    && (dm.monHocs[mon].tienQuyet.Some? ==> DatTu(db, sv, dm.monHocs[mon].tienQuyet.value, 400))
    && (dm.monHocs[mon].loaiMonHoc == "Bắt buộc" && VuotKy(dm, sv, hk, mon) ==> DatTu(db, sv, mon, 0))
  }

  lemma HoSoNghia(dm: DanhMuc, db: Db, sv: nat, mon: nat, hk: nat)
    requires sv in dm.sinhViens && mon in dm.monHocs && hk in dm.hocKys
    ensures KiemTraMon(dm, db, sv, mon, hk) == ThanhCong <==> HoSoDu(dm, db, sv, mon, hk)
  {
    MaxZNghia(db, sv, mon, 700);
    MaxZNghia(db, sv, mon, 0);
    if dm.monHocs[mon].tienQuyet.Some? { MaxZNghia(db, sv, dm.monHocs[mon].tienQuyet.value, 400); }
    TrongKhungNghia(KhungCua(dm, dm.sinhViens[sv]), mon, KyDangKy(dm, sv, hk));
  }

  /** The student's registration in class ma is new, and nothing else has changed. */
  ghost predicate ChiThem(db: Db, r: Db, sv: nat, ma: nat) {
    && r == db.(dangKys := r.dangKys, dangKyKe := r.dangKyKe) && r.dangKyKe == db.dangKyKe + 1
    && (forall e: nat :: e in r.dangKys <==> e in db.dangKys || e == db.dangKyKe)
    && (forall e: nat :: e in db.dangKys ==> e != db.dangKyKe && r.dangKys[e] == db.dangKys[e])
    && r.dangKys[db.dangKyKe] == DangKyLopHoc(sv, ma)
  }

  /** Fewer registrations in the class than it has seats. */
  ghost predicate ConGhe(db: Db, ma: nat)
    requires ma in db.lops
  {
    |set d | d in db.dangKys && db.dangKys[d].maLopHocKy == ma| < db.lops[ma].siSoToiDa
  }

  lemma ConGheNghia(db: Db, ma: nat)
    requires ma in db.lops
    ensures ConGhe(db, ma) <==> SiSo(db, ma) < db.lops[ma].siSoToiDa
  {
    assert DangKyCuaLop(db, ma) == set d | d in db.dangKys && db.dangKys[d].maLopHocKy == ma;
  }

  /** The class can stand beside every class in which the student is registered. */
  ghost predicate HocDuoc(db: Db, sv: nat, ma: nat)
    requires ma in db.lops
  {
    forall d :: d in db.dangKys && db.dangKys[d].maSinhVien == sv && db.dangKys[d].maLopHocKy in db.lops ==>
      HocCung(db.lops[ma], db.lops[db.dangKys[d].maLopHocKy])
  }

  lemma KhongLoi(dm: DanhMuc, db: Db, sv: nat, ma: nat, now: int)
    requires ToanVen(dm, db) && sv in dm.sinhViens && ma in db.lops
    ensures KiemTraDangKy(dm, db, sv, ma, now) == ThanhCong <==>
            && DangMoDangKy(dm, dm.sinhViens[sv], db.lops[ma].maHocKy, now)
            && KiemTraMon(dm, db, sv, db.lops[ma].maMonHoc, db.lops[ma].maHocKy) == ThanhCong
            && ConCho(db, sv, ma)
  {
  }

  /** Registering succeeds exactly while some round of the term that is meant for the student is under way
      and allows it, the student's record suffices, a seat is free, and the class is of another course than
      the student's other classes of the term and overlaps none of them. Then one registration is added. */
  lemma RegisterExact(dm: DanhMuc, db: Db, sv: nat, ma: nat, now: int)
    requires ToanVen(dm, db)
    ensures var (r, kc) := DangKy(dm, db, sv, ma, now);
            && (kc == ThanhCong <==>
                  && sv in dm.sinhViens && ma in db.lops
                  && MoDangKy(dm, dm.sinhViens[sv], db.lops[ma].maHocKy, now)
                  && HoSoDu(dm, db, sv, db.lops[ma].maMonHoc, db.lops[ma].maHocKy)
                  && ConGhe(db, ma) && HocDuoc(db, sv, ma))
            && (kc == ThanhCong ==> ChiThem(db, r, sv, ma)) && (kc != ThanhCong ==> r == db)
  {
    if sv in dm.sinhViens && ma in db.lops {
      MoNghia(dm, dm.sinhViens[sv], db.lops[ma].maHocKy, now);
      HoSoNghia(dm, db, sv, db.lops[ma].maMonHoc, db.lops[ma].maHocKy);
      ConChoTungLop(dm, db, sv, ma);
      ConGheNghia(db, ma);
      KhongLoi(dm, db, sv, ma, now);
      assert HocDuoc(db, sv, ma) <==> forall d :: d in db.dangKys && db.dangKys[d].maSinhVien == sv ==>
               HocCung(db.lops[ma], db.lops[db.dangKys[d].maLopHocKy]);
    }
  }

  lemma HoSoTuChoi(dm: DanhMuc, db: Db, sv: nat, mon: nat, hk: nat)
    requires sv in dm.sinhViens && mon in dm.monHocs && hk in dm.hocKys
    ensures var kc, tq := KiemTraMon(dm, db, sv, mon, hk), dm.monHocs[mon].tienQuyet;
            && (kc == DaDatMon ==> DatTu(db, sv, mon, 700))
            && (kc == ThieuTienQuyet ==> tq.Some? && !DatTu(db, sv, tq.value, 400))
            && (kc == ChuaToiKy ==> VuotKy(dm, sv, hk, mon) && !DatTu(db, sv, mon, 0))
            && kc in {ThanhCong, DaDatMon, ThieuTienQuyet, ChuaToiKy}
  {
    MaxZNghia(db, sv, mon, 700);
    MaxZNghia(db, sv, mon, 0);
    if dm.monHocs[mon].tienQuyet.Some? { MaxZNghia(db, sv, dm.monHocs[mon].tienQuyet.value, 400); }
    TrongKhungNghia(KhungCua(dm, dm.sinhViens[sv]), mon, KyDangKy(dm, sv, hk));
  }

  /** The remaining refusals, in terms of the queries. */
  lemma LopTuChoi(dm: DanhMuc, db: Db, sv: nat, ma: nat, now: int)
    requires ToanVen(dm, db) && sv in dm.sinhViens && ma in db.lops
    ensures var kc, lop := KiemTraDangKy(dm, db, sv, ma, now), db.lops[ma];
            && (kc == NgoaiDot ==> !DangMoDangKy(dm, dm.sinhViens[sv], lop.maHocKy, now))
            && (kc == DaDangKyLop ==> !ChuaHoc(db, sv, ma))
            && (kc == DaDangKyMon || kc == TrungLich ==> !HocDuoc(db, sv, ma))
            && (kc == LopDay ==> !ConGhe(db, ma))
            && (kc in {NgoaiDot, DaDangKyLop, DaDangKyMon, LopDay, TrungLich, ThanhCong} ||
                kc == KiemTraMon(dm, db, sv, lop.maMonHoc, lop.maHocKy))
  {
    ConChoTungLop(dm, db, sv, ma);
    ConGheNghia(db, ma);
    DaDangKyNghia(db, sv, ma);
  }

  /** Every refusal is true of the tables. */
  lemma RegisterRefusalsTrue(dm: DanhMuc, db: Db, sv: nat, ma: nat, now: int)
    requires ToanVen(dm, db) && sv in dm.sinhViens && ma in db.lops
    ensures var kc, lop := DangKy(dm, db, sv, ma, now).1, db.lops[ma];
            && (kc == NgoaiDot ==> !MoDangKy(dm, dm.sinhViens[sv], lop.maHocKy, now))
            && (kc == DaDangKyLop ==> !ChuaHoc(db, sv, ma))
            && (kc == DaDangKyMon || kc == TrungLich ==> !HocDuoc(db, sv, ma))
            && (kc == LopDay ==> !ConGhe(db, ma))
            && (kc == DaDatMon ==> DatTu(db, sv, lop.maMonHoc, 700))
            && (kc == ThieuTienQuyet ==> var tq := dm.monHocs[lop.maMonHoc].tienQuyet;
                                         tq.Some? && !DatTu(db, sv, tq.value, 400))
            && (kc == ChuaToiKy ==> VuotKy(dm, sv, lop.maHocKy, lop.maMonHoc) && !DatTu(db, sv, lop.maMonHoc, 0))
  {
    MoNghia(dm, dm.sinhViens[sv], db.lops[ma].maHocKy, now);
    HoSoTuChoi(dm, db, sv, db.lops[ma].maMonHoc, db.lops[ma].maHocKy);
    LopTuChoi(dm, db, sv, ma, now);
  }

  lemma DaDangKyNghia(db: Db, sv: nat, ma: nat)
    requires ma in db.lops
    ensures var cu := DangKyMon(db, sv, db.lops[ma].maHocKy, db.lops[ma].maMonHoc);
            cu != {} && db.dangKys[Least(cu)].maLopHocKy == ma ==> !ChuaHoc(db, sv, ma)
  {
  }

  // ---------------------------------------------------------------- moving

  /** No class the student has in the term, other than `tru`, overlaps class ma. */
  ghost predicate TrongLich(db: Db, sv: nat, hk: nat, ma: nat, tru: nat)
    requires ma in db.lops
  {
    forall e :: e in db.dangKys && db.dangKys[e].maSinhVien == sv && db.dangKys[e].maLopHocKy in db.lops &&
                db.dangKys[e].maLopHocKy != tru && db.lops[db.dangKys[e].maLopHocKy].maHocKy == hk ==>
      !TrungNhau(db.lops[ma].lichHocs, db.lops[db.dangKys[e].maLopHocKy].lichHocs)
  }

  lemma TrongLichNghia(dm: DanhMuc, db: Db, sv: nat, hk: nat, ma: nat, tru: nat)
    requires ToanVen(dm, db) && ma in db.lops
    ensures TrungLichSinhVien(db, sv, hk, db.lops[ma].lichHocs, Some(tru)) <==> !TrongLich(db, sv, hk, ma, tru)
  {
    if TrungLichSinhVien(db, sv, hk, db.lops[ma].lichHocs, Some(tru)) {
      var l :| l in db.lops && db.lops[l].maHocKy == hk && Some(l) != Some(tru) && CoDangKy(db, sv, l) &&
               TrungNhau(db.lops[ma].lichHocs, db.lops[l].lichHocs);
      var e :| e in db.dangKys && db.dangKys[e] == DangKyLopHoc(sv, l);
    }
    if !TrongLich(db, sv, hk, ma, tru) {
      var e :| e in db.dangKys && db.dangKys[e].maSinhVien == sv && db.dangKys[e].maLopHocKy in db.lops &&
               db.dangKys[e].maLopHocKy != tru && db.lops[db.dangKys[e].maLopHocKy].maHocKy == hk &&
               TrungNhau(db.lops[ma].lichHocs, db.lops[db.dangKys[e].maLopHocKy].lichHocs);
      assert db.dangKys[e] == DangKyLopHoc(sv, db.dangKys[e].maLopHocKy);
      assert CoDangKy(db, sv, db.dangKys[e].maLopHocKy);
    }
  }

  ghost predicate ChuaHoc(db: Db, sv: nat, ma: nat) {
    forall e :: e in db.dangKys && db.dangKys[e].maSinhVien == sv ==> db.dangKys[e].maLopHocKy != ma
  }

  lemma ChuaHocNghia(db: Db, sv: nat, ma: nat)
    ensures ChuaHoc(db, sv, ma) <==> !CoDangKy(db, sv, ma)
  {
    if !ChuaHoc(db, sv, ma) {
      var e :| e in db.dangKys && db.dangKys[e].maSinhVien == sv && db.dangKys[e].maLopHocKy == ma;
      assert db.dangKys[e] == DangKyLopHoc(sv, ma);
    }
  }

  /** Moving the student's own registration succeeds exactly when the class is another one of the same
      course that the student is not in, some round of the old class's term allows registering, a seat is
      free, and nothing else the student has in the old class's term overlaps it. */
  lemma MoveSucceedsExact(dm: DanhMuc, db: Db, sv: nat, d: nat, ma: nat, now: int)
    requires ToanVen(dm, db)
    ensures var (r, kc) := DoiLop(dm, db, sv, d, ma, now);
            && (kc == ThanhCong <==>
                  && CuaMinh(dm, db, sv, d) && ma in db.lops
                  && ChuaHoc(db, sv, ma)
                  && var cu := db.dangKys[d].maLopHocKy;
                     && db.lops[ma].maMonHoc == db.lops[cu].maMonHoc
                     && MoDangKy(dm, dm.sinhViens[sv], db.lops[cu].maHocKy, now)
                     && ConGhe(db, ma) && TrongLich(db, sv, db.lops[cu].maHocKy, ma, cu))
            && (kc != ThanhCong ==> r == db)
  {
    if CuaMinh(dm, db, sv, d) && ma in db.lops {
      var cu := db.dangKys[d].maLopHocKy;
      MoNghia(dm, dm.sinhViens[sv], db.lops[cu].maHocKy, now);
      TrongLichNghia(dm, db, sv, db.lops[cu].maHocKy, ma, cu);
      ConGheNghia(db, ma);
      ChuaHocNghia(db, sv, ma);
    }
  }
}
