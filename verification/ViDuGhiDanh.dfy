/** Two concrete requests that succeed and break enrolment, a move into another term and an update of a
    class with students; and a round that allows withdrawing only. */
module ViDuGhiDanh {
  import opened Wrappers
  import opened LichHoc
  import opened Entities
  import opened CoSoDuLieu
  import opened TichLuyDiem
  import opened DangKyHocPhan
  import opened LopHocTrongKy
  import opened GhiDanh
  import opened DangKyNghia

  /** One student, two courses, two terms, a round open in the first term. */
  function DanhMucNho(): DanhMuc {
    DanhMuc(map[0 := MonHoc("A", BAT_BUOC, 3, None), 1 := MonHoc("B", BAT_BUOC, 3, None)],
            map[0 := HocKy("1", "Chính", 2024, 2024, 0), 1 := HocKy("2", "Chính", 2024, 2025, 150)],
            map[0 := SinhVien(0, 2024, 0)],
            [DotDangKy(0, 0, 10, true, true, None, None)], map[], {}, c => c)
  }

  function Lop(ma: nat, mon: nat, hk: nat, thu: int): LopHoc {
    LopHoc(ma, mon, hk, "L", LY_THUYET, 10, [Buoi(thu, 1, 2, 0, 100, None)], [])
  }

  /** Class 0 of course 0 in term 0, and two classes of course 0 in term 1; the student is in 0 and 1. */
  function HaiKy(): Db {
    Db(map[0 := Lop(0, 0, 0, 2), 1 := Lop(1, 0, 1, 3), 2 := Lop(2, 0, 1, 4)],
       map[0 := DangKyLopHoc(0, 0), 1 := DangKyLopHoc(0, 1)],
       map[], map[0 := TichLuy(0, 0)], 3, 2)
  }

  /** Classes of two courses in one term, on different days; the student is in both. */
  function MotKy(): Db {
    Db(map[0 := Lop(0, 0, 0, 2), 1 := Lop(1, 1, 0, 3)],
       map[0 := DangKyLopHoc(0, 0), 1 := DangKyLopHoc(0, 1)],
       map[], map[0 := TichLuy(0, 0)], 2, 2)
  }

  /** Both examples: registrations 0 and 1 put student 0 into classes 0 and 1. */
  ghost predicate HaiDangKy(db: Db) {
    && (forall d: nat :: d in db.dangKys <==> d <= 1) && db.dangKyKe == 2
    && db.dangKys[0] == DangKyLopHoc(0, 0) && db.dangKys[1] == DangKyLopHoc(0, 1)
    && db.diems == map[] && (forall s: nat :: s in db.tichLuy <==> s == 0)
    && 0 in db.lops && 1 in db.lops
    && forall l :: l in db.lops ==> l < db.lopKe && db.lops[l].maLopHocKy == l && db.lops[l].maMonHoc < 2 &&
                                    db.lops[l].maHocKy < 2 && db.lops[l].siSoToiDa == 10 && db.lops[l].giangViens == []
  }

  lemma KhacThu(a: LopHoc, b: LopHoc)
    requires |a.lichHocs| == 1 && |b.lichHocs| == 1 && a.lichHocs[0].thu != b.lichHocs[0].thu
    ensures !TrungNhau(a.lichHocs, b.lichHocs)
  {
  }

  ghost predicate LaDanhMucNho(dm: DanhMuc) {
    && (forall m: nat :: m in dm.monHocs <==> m <= 1) && (forall h: nat :: h in dm.hocKys <==> h <= 1)
    && (forall s: nat :: s in dm.sinhViens <==> s == 0)
    && dm.dots != [] && dm.dots[0] == DotDangKy(0, 0, 10, true, true, None, None)
  }

  lemma DanhMucNhoNghia()
    ensures LaDanhMucNho(DanhMucNho())
  {
  }

  lemma HaiDangKyToanVen(dm: DanhMuc, db: Db)
    requires LaDanhMucNho(dm) && HaiDangKy(db)
    ensures ToanVen(dm, db)
  {
  }

  lemma HaiDangKyDung(dm: DanhMuc, db: Db)
    requires LaDanhMucNho(dm) && HaiDangKy(db) && ToanVen(dm, db) && HocCung(db.lops[0], db.lops[1])
    ensures GhiDanhDung(dm, db) && forall l :: SiSo(db, l) <= 2
  {
    forall l ensures SiSo(db, l) <= 2 { TapCon(DangKyCuaLop(db, l), {0, 1}); }
    HocCungDoiXung(db.lops[0], db.lops[1]);
    forall d, e | d in db.dangKys && e in db.dangKys ensures CapDung(db, d, e) {
      if d != e { assert (d == 0 && e == 1) || (d == 1 && e == 0); }
    }
  }

  lemma HaiKyNghia()
    ensures HaiDangKy(HaiKy()) && 2 in HaiKy().lops && (forall l: nat :: l in HaiKy().lops <==> l <= 2)
    ensures HaiKy().lops[0] == Lop(0, 0, 0, 2) && HaiKy().lops[1] == Lop(1, 0, 1, 3) &&
            HaiKy().lops[2] == Lop(2, 0, 1, 4)
  {
  }

  lemma MotKyNghia()
    ensures HaiDangKy(MotKy()) && (forall l: nat :: l in MotKy().lops <==> l <= 1)
    ensures MotKy().lops[0] == Lop(0, 0, 0, 2) && MotKy().lops[1] == Lop(1, 1, 0, 3)
  {
  }

  lemma DoiLopQua(dm: DanhMuc, db: Db)
    requires LaDanhMucNho(dm) && HaiDangKy(db) && ToanVen(dm, db) && SiSo(db, 2) <= 2
    requires (forall l: nat :: l in db.lops <==> l <= 2)
    requires db.lops[0] == Lop(0, 0, 0, 2) && db.lops[1] == Lop(1, 0, 1, 3) && db.lops[2] == Lop(2, 0, 1, 4)
    ensures KiemTraDoiLop(dm, db, 0, 0, 2, 5) == ThanhCong && !DoiLopAnToan(db, 0, 0, 2)
  {
    var dot := dm.dots[0];
    assert dot in dm.dots && DotDangDienRa(dot, dm.sinhViens[0], 0, 5);
    assert !CoDangKy(db, 0, 2);
    assert 1 in DangKyMon(db, 0, 1, 0);
  }

  /** The move from the class of the first term to class 2 of the second term succeeds, and the
      student then has two classes of one course in the second term. */
  lemma MoveCanBreak()
    ensures ToanVen(DanhMucNho(), HaiKy()) && GhiDanhDung(DanhMucNho(), HaiKy())
    ensures var r := DoiLop(DanhMucNho(), HaiKy(), 0, 0, 2, 5);
            r.1 == ThanhCong && ToanVen(DanhMucNho(), r.0) && !GhiDanhDung(DanhMucNho(), r.0)
  {
    DanhMucNhoNghia();
    HaiKyNghia();
    MoveBreaks(DanhMucNho(), HaiKy());
  }

  lemma MoveBreaks(dm: DanhMuc, db: Db)
    requires LaDanhMucNho(dm) && HaiDangKy(db) && (forall l: nat :: l in db.lops <==> l <= 2)
    requires db.lops[0] == Lop(0, 0, 0, 2) && db.lops[1] == Lop(1, 0, 1, 3) && db.lops[2] == Lop(2, 0, 1, 4)
    ensures ToanVen(dm, db) && GhiDanhDung(dm, db)
    ensures var r := DoiLop(dm, db, 0, 0, 2, 5);
            r.1 == ThanhCong && ToanVen(dm, r.0) && !GhiDanhDung(dm, r.0)
  {
    HaiDangKyToanVen(dm, db);
    HaiDangKyDung(dm, db);
    DoiLopQua(dm, db);
    MoveExact(dm, db, 0, 0, 2, 5);
  }

  function YeuCauMoi(): YeuCauLop {
    YeuCauLop("L", LY_THUYET, 10, None, [Buoi(3, 2, 3, 0, 100, None)])
  }

  lemma UpdateQua(dm: DanhMuc, db: Db, yc: YeuCauLop)
    requires HaiDangKy(db) && yc == YeuCauMoi() && (forall l: nat :: l in db.lops <==> l <= 1)
    requires db.lops[0] == Lop(0, 0, 0, 2) && db.lops[1] == Lop(1, 1, 0, 3)
    ensures Update(dm, db, true, 0, yc).1 == ThanhCong && !UpdateAnToan(db, 0, yc)
  {
    TenL();
    ScheduleCheckExact(yc.lichHocs);
    var x, y := yc.lichHocs[0], db.lops[1].lichHocs[0];
    assert x in yc.lichHocs && y in db.lops[1].lichHocs && BuoiTrungNhau(x, y);
    assert TrungVoi(x, db.lops[1].lichHocs);
    assert !PhongBiTrung(dm, db, 0, yc.lichHocs, Some(0));
    assert !TenBiTrung(db, "L", 0, 0, Some(0));
  }

  lemma UpdateBreaks(dm: DanhMuc, db: Db)
    requires LaDanhMucNho(dm) && HaiDangKy(db) && (forall l: nat :: l in db.lops <==> l <= 1)
    requires db.lops[0] == Lop(0, 0, 0, 2) && db.lops[1] == Lop(1, 1, 0, 3)
    ensures ToanVen(dm, db) && GhiDanhDung(dm, db)
    ensures var r := Update(dm, db, true, 0, YeuCauMoi());
            r.1 == ThanhCong && ToanVen(dm, r.0) && !GhiDanhDung(dm, r.0)
  {
    HaiDangKyToanVen(dm, db);
    KhacThu(db.lops[0], db.lops[1]);
    HaiDangKyDung(dm, db);
    UpdateQua(dm, db, YeuCauMoi());
    UpdateExact(dm, db, true, 0, YeuCauMoi());
  }

  /** Moving class 0 to the day of class 1 is accepted, and the student's two classes then overlap. */
  lemma UpdateCanBreak()
    ensures ToanVen(DanhMucNho(), MotKy()) && GhiDanhDung(DanhMucNho(), MotKy())
    ensures var r := Update(DanhMucNho(), MotKy(), true, 0, YeuCauMoi());
            r.1 == ThanhCong && ToanVen(DanhMucNho(), r.0) && !GhiDanhDung(DanhMucNho(), r.0)
  {
    DanhMucNhoNghia();
    MotKyNghia();
    UpdateBreaks(DanhMucNho(), MotKy());
  }

  ghost predicate ChiChoRut(dm: DanhMuc) {
    && (forall s: nat :: s in dm.sinhViens <==> s == 0)
    && (forall m: nat :: m in dm.monHocs <==> m <= 1) && (forall h: nat :: h in dm.hocKys <==> h <= 1)
    && dm.dots == [DotDangKy(0, 0, 10, false, true, None, None)]
  }

  lemma RutToanVen(dm: DanhMuc, db: Db)
    requires ChiChoRut(dm) && HaiDangKy(db)
    ensures ToanVen(dm, db)
  {
  }

  lemma WithdrawalCancels(dm: DanhMuc, db: Db)
    requires ChiChoRut(dm) && HaiDangKy(db) && db.lops[0] == Lop(0, 0, 0, 2) && db.lops[1].maHocKy == 1
    ensures ToanVen(dm, db)
    ensures HuyDangKy(dm, db, 0, 0, 5).1 == ThanhCong && HuyDangKy(dm, db, 0, 1, 5).1 == NgoaiDot
    ensures DangKy(dm, db, 0, 0, 5).1 == NgoaiDot
  {
    RutToanVen(dm, db);
    var dot, s := dm.dots[0], dm.sinhViens[0];
    assert dot in dm.dots && DotMo(dot, s, 0, 5);
    CancelExact(dm, db, 0, 0, 5);
    CancelExact(dm, db, 0, 1, 5);
    MoNghia(dm, s, 0, 5);
  }

  /** While the only round under way, one of the first term, allows withdrawing but not registering, a
      registration of that term can be cancelled, one of the other term cannot, and none can be made. */
  lemma WithdrawalOnlyRound()
    ensures var dm := DanhMucNho().(dots := [DotDangKy(0, 0, 10, false, true, None, None)]);
            && ToanVen(dm, HaiKy())
            && HuyDangKy(dm, HaiKy(), 0, 0, 5).1 == ThanhCong && HuyDangKy(dm, HaiKy(), 0, 1, 5).1 == NgoaiDot
            && DangKy(dm, HaiKy(), 0, 0, 5).1 == NgoaiDot
  {
    DanhMucNhoNghia();
    HaiKyNghia();
    WithdrawalCancels(DanhMucNho().(dots := [DotDangKy(0, 0, 10, false, true, None, None)]), HaiKy());
  }
}
