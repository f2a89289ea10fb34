/** Concrete terms that start in another year than their academic year: the advice page and registration
    then count the student's term differently. */
module ViDuKyHoc {
  import opened Wrappers
  import opened LichHoc
  import opened Entities
  import opened TichLuyDiem
  import opened CoSoDuLieu
  import opened DangKyHocPhan
  import opened ChuongTrinh

  /** Required course A of curriculum term 3 has a class in the one term, in which registration is open;
      the one student has no records. */
  function DanhMucMotKy(ky: HocKy, vao: int): DanhMuc {
    DanhMuc(map[0 := MonHoc("A", BAT_BUOC, 3, None)], map[0 := ky], map[0 := SinhVien(0, vao, 0)],
            [DotDangKy(0, 0, 10, true, true, None, None)], map[0 := [KhungMon(0, 3)]], {}, c => c)
  }

  function LopA(): LopHoc { LopHoc(0, 0, 0, "L", "Lý thuyết", 10, [Buoi(2, 1, 2, 0, 100, None)], []) }

  function BangMotLop(): Db { Db(map[0 := LopA()], map[], map[], map[0 := TichLuy(0, 0)], 1, 0) }

  ghost predicate LaMotKy(dm: DanhMuc, ky: HocKy, vao: int) {
    && (forall k: nat :: k in dm.monHocs <==> k == 0) && dm.monHocs[0] == MonHoc("A", BAT_BUOC, 3, None)
    && (forall k: nat :: k in dm.hocKys <==> k == 0) && dm.hocKys[0] == ky
    && (forall k: nat :: k in dm.sinhViens <==> k == 0) && dm.sinhViens[0] == SinhVien(0, vao, 0)
    && dm.dots == [DotDangKy(0, 0, 10, true, true, None, None)]
    && 0 in dm.khung && dm.khung[0] == [KhungMon(0, 3)]
  }

  ghost predicate LaMotLop(db: Db) {
    && (forall k: nat :: k in db.lops <==> k == 0) && db.lops[0] == LopA() && db.lopKe == 1
    && (forall k: nat :: k !in db.dangKys) && (forall k: nat :: k !in db.diems)
    && (forall k: nat :: k in db.tichLuy <==> k == 0)
  }

  lemma MotKyDung(ky: HocKy, vao: int)
    ensures LaMotKy(DanhMucMotKy(ky, vao), ky, vao) && LaMotLop(BangMotLop())
  {
  }

  lemma MotKyToanVen(dm: DanhMuc, db: Db, ky: HocKy, vao: int)
    requires LaMotKy(dm, ky, vao) && LaMotLop(db)
    ensures ToanVen(dm, db) && KhungDung(dm, KhungCua(dm, dm.sinhViens[0]))
  {
  }

  lemma ChuaHocA(dm: DanhMuc, db: Db, ky: HocKy, vao: int, tu: int, den: int)
    requires LaMotKy(dm, ky, vao) && LaMotLop(db) && tu < 3 <= den
    ensures ChuaHocGiua(dm, db, 0, 0, KhungMon(0, 3), tu, den) && CoLop(db, 0, 0)
  {
    assert CacZ(db, 0, 0) == {} && DangKyMon(db, 0, 0, 0) == {};
    assert 0 in db.lops && db.lops[0].maHocKy == 0;
  }

  /** Only the guards on the course can refuse. */
  lemma ChiConMon(dm: DanhMuc, db: Db, ky: HocKy, vao: int)
    requires LaMotKy(dm, ky, vao) && LaMotLop(db) && ToanVen(dm, db)
    ensures KiemTraDangKy(dm, db, 0, 0, 5) == KiemTraMon(dm, db, 0, 0, 0)
    ensures KiemTraMon(dm, db, 0, 0, 0) == if 3 > KyDangKy(dm, 0, 0) then ChuaToiKy else ThanhCong
  {
    assert dm.dots[0] in dm.dots && DotDangDienRa(dm.dots[0], dm.sinhViens[0], 0, 5);
    assert DangKyCuaLop(db, 0) == {} && CacZ(db, 0, 0) == {} && DangKyMon(db, 0, 0, 0) == {};
    assert !TrungLichSinhVien(db, 0, 0, db.lops[0].lichHocs, None);
  }

  lemma TrangDong(dm: DanhMuc, db: Db, ky: HocKy, vao: int)
    requires LaMotKy(dm, ky, vao) && LaMotLop(db) && KhungDung(dm, KhungCua(dm, dm.sinhViens[0]))
    requires KyTrang(dm, 0, 0) < 3 <= KyDangKy(dm, 0, 0)
    ensures !BuildChuongTrinh(dm, db, 0, 0)[0].coTheDangKy && !TruotTruocKy(dm, db, 0, 0, KhungMon(0, 3))
  {
    ChuaHocA(dm, db, ky, vao, KyTrang(dm, 0, 0), KyDangKy(dm, 0, 0));
    AdviceExact(dm, db, 0, 0, 0);
  }

  lemma TrangMo(dm: DanhMuc, db: Db, ky: HocKy, vao: int)
    requires LaMotKy(dm, ky, vao) && LaMotLop(db) && KhungDung(dm, KhungCua(dm, dm.sinhViens[0]))
    requires KyDangKy(dm, 0, 0) < 3 <= KyTrang(dm, 0, 0)
    ensures BuildChuongTrinh(dm, db, 0, 0)[0].coTheDangKy
  {
    ChuaHocA(dm, db, ky, vao, KyDangKy(dm, 0, 0), KyTrang(dm, 0, 0));
    AdviceExact(dm, db, 0, 0, 0);
  }

  /** The second term of 2024-25, which starts in 2025. */
  const KY_HAI := HocKy("2", "Chính", 2024, 2025, 150)

  /** For a student who entered in 2024 the page puts the course after the term reached, 2; registration
      takes the term reached to be 4 and accepts. */
  lemma SecondSemesterAccepted()
    ensures var dm, db := DanhMucMotKy(KY_HAI, 2024), BangMotLop();
            && ToanVen(dm, db) && KhungDung(dm, KhungCua(dm, dm.sinhViens[0]))
            && KyTrang(dm, 0, 0) == 2 && KyDangKy(dm, 0, 0) == 4
            && !BuildChuongTrinh(dm, db, 0, 0)[0].coTheDangKy && !TruotTruocKy(dm, db, 0, 0, KhungMon(0, 3))
            && KiemTraDangKy(dm, db, 0, 0, 5) == ThanhCong
  {
    var dm, db := DanhMucMotKy(KY_HAI, 2024), BangMotLop();
    MotKyDung(KY_HAI, 2024);
    MotKyToanVen(dm, db, KY_HAI, 2024);
    assert '2' in "2" by { assert "2"[0] == '2'; }
    TrangDong(dm, db, KY_HAI, 2024);
    ChiConMon(dm, db, KY_HAI, 2024);
  }

  /** A first term of 2024-25 entered as starting in 2023, which nothing prevents. */
  const KY_SOM := HocKy("1", "Chính", 2024, 2023, 0)

  /** For a student who entered in 2023 the page opens the course; registration refuses it. */
  lemma EarlyTermRefused()
    ensures var dm, db := DanhMucMotKy(KY_SOM, 2023), BangMotLop();
            && ToanVen(dm, db) && KhungDung(dm, KhungCua(dm, dm.sinhViens[0]))
            && KyTrang(dm, 0, 0) == 3 && KyDangKy(dm, 0, 0) == 1
            && BuildChuongTrinh(dm, db, 0, 0)[0].coTheDangKy
            && KiemTraDangKy(dm, db, 0, 0, 5) == ChuaToiKy
  {
    var dm, db := DanhMucMotKy(KY_SOM, 2023), BangMotLop();
    MotKyDung(KY_SOM, 2023);
    MotKyToanVen(dm, db, KY_SOM, 2023);
    assert '2' !in "1";
    TrangMo(dm, db, KY_SOM, 2023);
    ChiConMon(dm, db, KY_SOM, 2023);
  }
}
