/** Courses named as unwanted: how one of them can still be suggested. */
module GoiYKhongMuon {
  import opened Wrappers
  import opened LichHoc
  import opened Entities
  import opened XepLich
  import opened XepLichAnToan
  import opened BienThe
  import opened TuChon
  import opened GoiYDanhSach
  import opened GoiYAnToan
  import opened GoiYDeXuat
  import opened LopHocTrongKy
  import opened DangKyHocPhan

  lemma BoTrongCt(v: DauVao, x: MonHocCt)
    requires DauVaoDung(v) && x in CanXep(v.ct, v.yeuCau, v.lops, v.daDangKy, v.kyDat).1
    ensures x in v.ct
  {
    var dau := BatBuocCanXep(v.ct, v.yeuCau, v.kyDat);
    BatBuocLayTu(v.ct, v.yeuCau, v.kyDat);
    ThemTheoTenLayTu(dau, v.ct, v.yeuCau, v.lops, TenMuon(v));
    BoTheoTenTu(ThemTheoTen(dau, v.ct, v.yeuCau, v.lops, TenMuon(v)), [], v.yeuCau, v.yeuCau.monKhongMuonHoc, x);
  }

  lemma ConLaiKhongMuon(v: DauVao, m: MonHocCt, t: string)
    requires DauVaoDung(v)
    requires var con := CanXep(v.ct, v.yeuCau, v.lops, v.daDangKy, v.kyDat).0; m in con
    requires t in v.yeuCau.monKhongMuonHoc && v.yeuCau.khop(m.tenMonHoc, t)
    ensures BoThay(CanXep(v.ct, v.yeuCau, v.lops, v.daDangKy, v.kyDat).1, v.yeuCau, m, t)
  {
    var dau := BatBuocCanXep(v.ct, v.yeuCau, v.kyDat);
    BatBuocLayTu(v.ct, v.yeuCau, v.kyDat);
    ThemTheoTenLayTu(dau, v.ct, v.yeuCau, v.lops, TenMuon(v));
    var them := ThemTheoTen(dau, v.ct, v.yeuCau, v.lops, TenMuon(v));
    BoTheoTenNghia(them, [], v.yeuCau, v.yeuCau.monKhongMuonHoc);
    BoTheoTenLayTu(them, [], v.yeuCau, v.yeuCau.monKhongMuonHoc, v.ct);
    BoMaLayTu(BoTheoTen(them, [], v.yeuCau, v.yeuCau.monKhongMuonHoc).0, v.daDangKy, v.ct);
  }

  /** Why a suggestion can still hold a new course that matches an unwanted name: the solver placed it
      because another course that matches was removed in its place; or it is an elective open to the
      student that did not stand in the list to place, and the fill took it. */
  lemma UnwantedCourse(v: DauVao, kq: KetQua, m: MonHocCt, t: string)
    requires DauVaoDung(v) && AnToan(BaiCua(v), 0, v.coDinh, kq.chon)
    requires m in v.ct && m.maMonHoc in XayDungKetQua(v, kq).chon && m.maMonHoc !in v.coDinh
    requires t in v.yeuCau.monKhongMuonHoc && v.yeuCau.khop(m.tenMonHoc, t)
    ensures var (con, bo) := CanXep(v.ct, v.yeuCau, v.lops, v.daDangKy, v.kyDat);
            if m.maMonHoc in kq.chon then m in con && BoThay(bo, v.yeuCau, m, t)
            else LaUngVien(m, v.yeuCau, v.daDangKy, kq.chon, bo, v.kyDat) && v.yeuCau.soMonTuChonBatKy > 0
  {
    var c := v.yeuCau;
    var (con, bo) := CanXep(v.ct, c, v.lops, v.daDangKy, v.kyDat);
    if m.maMonHoc in kq.chon {
      CanXepLayTu(v);
      BaTangHoanVi(con, c, v.lops);
      var j :| 0 <= j < |BaiCua(v).thuTu| && BaiCua(v).thuTu[j].maMonHoc == m.maMonHoc;
      var x := BaiCua(v).thuTu[j];
      assert x in BaiCua(v).thuTu && x in v.ct;
      CungMaCungMon(v.ct, x, m);
      ConLaiKhongMuon(v, m, t);
    } else {
      var u := UngVienTuChon(v.ct, c, v.lops, v.daDangKy, kq.chon, bo, v.kyDat);
      UngVienDung(v, kq.chon);
      FillSound(u, v.lops, c, c.soMonTuChonBatKy, kq.chon);
      var p :| 0 <= p < |u| && u[p].maMonHoc == m.maMonHoc;
      assert u[p] in u;
      CungMaCungMon(v.ct, u[p], m);
    }
  }

  // ---------------------------------------------------------------- a name that matches one course alone

  /** The unwanted name t matches m and no other course of the curriculum, and m is not registered. */
  ghost predicate ChiMotMon(v: DauVao, m: MonHocCt, t: string) {
    && m in v.ct && m.maMonHoc !in v.coDinh
    && t in v.yeuCau.monKhongMuonHoc && v.yeuCau.khop(m.tenMonHoc, t)
    && forall x :: x in v.ct && v.yeuCau.khop(x.tenMonHoc, t) ==> x == m
  }

  /** An elective open to the student, of the term if only the term is wanted, not asked for by name as
      well, while some electives are to be filled in. */
  ghost predicate DienDuoc(v: DauVao, m: MonHocCt) {
    && m.loaiMonHoc == TU_CHON && m.coTheDangKy && (v.yeuCau.chiKyHienTai ==> m.kyHoc == v.kyDat)
    && v.yeuCau.soMonTuChonBatKy > 0 && !NeuTen(v, m)
  }

  lemma BoThayKhong(v: DauVao, m: MonHocCt, t: string)
    requires DauVaoDung(v) && ChiMotMon(v, m, t)
    ensures !BoThay(CanXep(v.ct, v.yeuCau, v.lops, v.daDangKy, v.kyDat).1, v.yeuCau, m, t)
  {
    var bo := CanXep(v.ct, v.yeuCau, v.lops, v.daDangKy, v.kyDat).1;
    forall x | x in bo ensures x in v.ct { BoTrongCt(v, x); }
  }

  /** If it has an offered class and was asked for by name as well, it is removed. */
  lemma NeuTenBiBo(v: DauVao, m: MonHocCt, t: string)
    requires DauVaoDung(v) && ChiMotMon(v, m, t) && NeuTen(v, m) && m.maMonHoc in v.lops
    ensures m in CanXep(v.ct, v.yeuCau, v.lops, v.daDangKy, v.kyDat).1
  {
    var dau := BatBuocCanXep(v.ct, v.yeuCau, v.kyDat);
    BatBuocLayTu(v.ct, v.yeuCau, v.kyDat);
    ThemTheoTenLayTu(dau, v.ct, v.yeuCau, v.lops, TenMuon(v));
    ThemTheoTenDu(dau, v.ct, v.yeuCau, v.lops, TenMuon(v), m);
    BoTheoTenNghia(ThemTheoTen(dau, v.ct, v.yeuCau, v.lops, TenMuon(v)), [], v.yeuCau, v.yeuCau.monKhongMuonHoc);
    BoThayKhong(v, m, t);
  }

  /** An elective that was not asked for by name is never in the list, so it is not removed either. */
  lemma TuChonKhongBo(v: DauVao, m: MonHocCt)
    requires DauVaoDung(v) && m in v.ct && m.loaiMonHoc == TU_CHON && !NeuTen(v, m)
    ensures !CoMa(CanXep(v.ct, v.yeuCau, v.lops, v.daDangKy, v.kyDat).1, m.maMonHoc)
  {
    var bo := CanXep(v.ct, v.yeuCau, v.lops, v.daDangKy, v.kyDat).1;
    forall x | x in bo ensures x.maMonHoc != m.maMonHoc {
      BoTrongCt(v, x);
      if x.maMonHoc == m.maMonHoc {
        CungMaCungMon(v.ct, x, m);
        TuChonNgoaiDanhSach(v, m);
      }
    }
  }

  lemma TuChonNgoaiDanhSach(v: DauVao, m: MonHocCt)
    requires DauVaoDung(v) && m.loaiMonHoc == TU_CHON && !NeuTen(v, m)
    ensures m !in CanXep(v.ct, v.yeuCau, v.lops, v.daDangKy, v.kyDat).1
  {
    var dau := BatBuocCanXep(v.ct, v.yeuCau, v.kyDat);
    BatBuocLayTu(v.ct, v.yeuCau, v.kyDat);
    ThemTheoTenLayTu(dau, v.ct, v.yeuCau, v.lops, TenMuon(v));
    var them := ThemTheoTen(dau, v.ct, v.yeuCau, v.lops, TenMuon(v));
    assert TU_CHON != BAT_BUOC by { assert TU_CHON[0] != BAT_BUOC[0]; }
    if m in CanXep(v.ct, v.yeuCau, v.lops, v.daDangKy, v.kyDat).1 {
      BoTheoTenTu(them, [], v.yeuCau, v.yeuCau.monKhongMuonHoc, m);
      ThemTheoTenNguon(dau, v.ct, v.yeuCau, v.lops, TenMuon(v), m);
    }
  }

  /** Otherwise the course is avoided, whatever the search does. */
  lemma UnwantedAvoided(v: DauVao, kq: KetQua, m: MonHocCt, t: string)
    requires DauVaoDung(v) && AnToan(BaiCua(v), 0, v.coDinh, kq.chon)
    requires ChiMotMon(v, m, t) && !DienDuoc(v, m)
    ensures m.maMonHoc !in XayDungKetQua(v, kq).chon
  {
    var chon := XayDungKetQua(v, kq).chon;
    if m.maMonHoc in chon {
      UnwantedCourse(v, kq, m, t);
      BoThayKhong(v, m, t);
      DeXuatTu(v, kq);
      assert MonMoi(v, m.maMonHoc, chon[m.maMonHoc]);
      NeuTenBiBo(v, m, t);
    }
  }

  ghost predicate CoDeXuat(v: DauVao, m: MonHocCt) {
    exists i :: 0 <= i < |GoiY(v)| && m.maMonHoc in GoiY(v)[i].chon
  }

  // ---------------------------------------------------------------- a class after all registered ones

  /** A class that the catalogue can hold: creation stores it. */
  ghost predicate LopTaoDuoc(l: LopHoc) {
    exists yc :: KiemTraMau(yc) == ThanhCong && LoiLichHocs(yc.lichHocs).None? &&
                 l == LopMoi(l.maLopHocKy, l.maMonHoc, l.maHocKy, yc)
  }

  ghost predicate CacLopTaoDuoc(lops: LopTheoMon) {
    forall k, l :: k in lops && l in lops[k] ==> l.maMonHoc == k && LopTaoDuoc(l)
  }

  /** A date after all these sessions. */
  lemma {:induction false} SauCacBuoi(bs: seq<Buoi>) returns (ngay: int)
    ensures forall b :: b in bs ==> b.ngayKetThuc < ngay
  {
    ngay := 0;
    if bs != [] {
      var n := SauCacBuoi(bs[1..]);
      ngay := if n <= bs[0].ngayKetThuc then bs[0].ngayKetThuc + 1 else n;
      assert forall b :: b in bs <==> b == bs[0] || b in bs[1..];
    }
  }

  lemma {:induction false} SauCacLop(chon: BangChon) returns (ngay: int)
    ensures forall k, b :: k in chon && b in chon[k].lichHocs ==> b.ngayKetThuc < ngay
    decreases |chon|
  {
    ngay := 0;
    if chon.Keys != {} {
      var k: nat :| k in chon;
      var con := chon - {k};
      assert |con| < |chon| by { assert con.Keys == chon.Keys - {k}; assert |con| == |con.Keys|; }
      var x := SauCacBuoi(chon[k].lichHocs);
      var y := SauCacLop(con);
      ngay := if x <= y then y else x;
      forall j, b | j in chon && b in chon[j].lichHocs ensures b.ngayKetThuc < ngay {
        if j != k { assert j in con && con[j] == chon[j]; }
      }
    }
  }

  lemma MauL(bs: seq<Buoi>)
    ensures KiemTraMau(YeuCauLop("L", LY_THUYET, 1, None, bs)) == ThanhCong
  {
    TenL();
  }

  lemma MotBuoiHopLe(b: Buoi)
    requires LoiBuoi(b).None?
    ensures LoiLichHocs([b]).None? && LuuLich([b]) == [LuuBuoi(b)]
  {
    assert [b][1..] == [];
    assert LoiCacBuoi([b]).None?;
  }

  /** A class of one morning session on the given date. */
  lemma LopSau(ma: nat, ngay: int) returns (l: LopHoc)
    ensures l.maMonHoc == ma && LopTaoDuoc(l) && forall b :: b in l.lichHocs ==> b.ngayBatDau >= ngay
  {
    var b := Buoi(2, 1, 1, ngay, ngay, None);
    var yc := YeuCauLop("L", LY_THUYET, 1, None, [b]);
    MotBuoiHopLe(b);
    MauL([b]);
    l := LopMoi(0, ma, 0, yc);
  }

  lemma ConCach(v: DauVao, m: MonHocCt, l: LopHoc, chon: BangChon, ngay: int)
    requires v.lops == map[m.maMonHoc := [l]] && m.maMonHoc !in chon && DeXuatDung(v, chon)
    requires forall k, b :: k in v.coDinh && b in v.coDinh[k].lichHocs ==> b.ngayKetThuc < ngay
    requires forall b :: b in l.lichHocs ==> b.ngayBatDau >= ngay
    ensures !HetCach(m, v.lops, chon)
  {
    forall k | k in chon ensures !TrungNhau(l.lichHocs, chon[k].lichHocs) {
      assert k !in v.coDinh ==> MonMoi(v, k, chon[k]);
    }
    assert l in v.lops[m.maMonHoc] && Hop(l, chon);
  }

  /** When its one class is all that is offered, the fill takes it. */
  lemma ChiMotLop(v: DauVao, m: MonHocCt, l: LopHoc, ngay: int)
    requires DauVaoDung(v) && m in v.ct && m.maMonHoc !in v.coDinh && DienDuoc(v, m)
    requires v.lops == map[m.maMonHoc := [l]]
    requires forall k, b :: k in v.coDinh && b in v.coDinh[k].lichHocs ==> b.ngayKetThuc < ngay
    requires forall b :: b in l.lichHocs ==> b.ngayBatDau >= ngay
    ensures CoDeXuat(v, m)
  {
    var kqs := TimNhieu(BaiCua(v), v.coDinh, SO_LUONG_GOI_Y);
    BienTheAnToan(v);
    assert kqs[0] in kqs;
    KetQuaDung(v, kqs[0]);
    ElectiveNoteTrue(v, kqs[0]);
    var chon := GoiY(v)[0].chon;
    if m.maMonHoc !in chon {
      ChiLopDo(v, m, l, kqs[0].chon, chon);
      TuChonKhongBo(v, m);
      ConCach(v, m, l, chon, ngay);
    }
  }

  lemma ChiLopDo(v: DauVao, m: MonHocCt, l: LopHoc, truoc: BangChon, chon: BangChon)
    requires v.lops == map[m.maMonHoc := [l]] && DeXuatDung(v, chon) && m.maMonHoc !in chon
    requires forall k :: k in truoc ==> k in chon && chon[k] == truoc[k]
    requires forall k :: k in v.coDinh ==> k in truoc
    ensures |chon| == |truoc|
  {
    forall k | k in chon ensures k in truoc { assert k !in v.coDinh ==> MonMoi(v, k, chon[k]); }
    assert chon.Keys == truoc.Keys;
    assert |chon| == |chon.Keys| && |truoc| == |truoc.Keys|;
  }

  /** A course that alone matches an unwanted name: whether some choice of offered classes, all of them
      such as the catalogue can hold, makes a suggestion take it. */
  lemma UnwantedExact(v: DauVao, m: MonHocCt, t: string)
    requires DauVaoDung(v) && ChiMotMon(v, m, t)
    ensures (exists lops :: CacLopTaoDuoc(lops) && CoDeXuat(v.(lops := lops), m)) <==> DienDuoc(v, m)
  {
    forall lops: LopTheoMon | CoDeXuat(v.(lops := lops), m) ensures DienDuoc(v, m) {
      DeXuatCanDien(v.(lops := lops), m, t);
    }
    if DienDuoc(v, m) { var lops := CoLopDien(v, m); }
  }

  lemma BangMotLop(ma: nat, l: LopHoc)
    requires l.maMonHoc == ma && LopTaoDuoc(l)
    ensures CacLopTaoDuoc(map[ma := [l]])
  {
  }

  /** What is offered does not matter to these conditions. */
  lemma DoiLopMo(v: DauVao, m: MonHocCt, lops: LopTheoMon)
    requires DauVaoDung(v) && DienDuoc(v, m)
    ensures DauVaoDung(v.(lops := lops)) && DienDuoc(v.(lops := lops), m)
  {
  }

  lemma CoLopDien(v: DauVao, m: MonHocCt) returns (lops: LopTheoMon)
    requires DauVaoDung(v) && m in v.ct && m.maMonHoc !in v.coDinh && DienDuoc(v, m)
    ensures CacLopTaoDuoc(lops) && CoDeXuat(v.(lops := lops), m)
  {
    var ngay := SauCacLop(v.coDinh);
    var l := LopSau(m.maMonHoc, ngay);
    lops := map[m.maMonHoc := [l]];
    BangMotLop(m.maMonHoc, l);
    DoiLopMo(v, m, lops);
    ChiMotLop(v.(lops := lops), m, l, ngay);
  }

  lemma DeXuatCanDien(v: DauVao, m: MonHocCt, t: string)
    requires DauVaoDung(v) && ChiMotMon(v, m, t) && CoDeXuat(v, m)
    ensures DienDuoc(v, m)
  {
    var i :| 0 <= i < |GoiY(v)| && m.maMonHoc in GoiY(v)[i].chon;
    var kqs := TimNhieu(BaiCua(v), v.coDinh, SO_LUONG_GOI_Y);
    BienTheAnToan(v);
    assert kqs[i] in kqs;
    if !DienDuoc(v, m) { UnwantedAvoided(v, kqs[i], m, t); }
  }
}
