/** A concrete cancellation that leaves a stale GPA in the cache. */
module ViDuTichLuy {
  import opened Math
  import opened Wrappers
  import opened Collections
  import opened CoSoDuLieu
  import opened TichLuyDiem
  import opened DangKyHocPhan
  import opened TichLuyLuu
  import opened ViDuGhiDanh

  /** Course 0, of three credits, taken twice: 9.00 in class 0, 5.00 in class 1. */
  function HaiLan(): Db {
    Db(map[0 := Lop(0, 0, 0, 2), 1 := Lop(1, 0, 1, 3)],
       map[0 := DangKyLopHoc(0, 0), 1 := DangKyLopHoc(0, 1)],
       map[0 := DiemHocPhan(Some(9.0), Some(9.0), Some(900)), 1 := DiemHocPhan(Some(5.0), Some(5.0), Some(500))],
       map[0 := TichLuy(3, 400)], 2, 2)
  }

  lemma MotDong(z: nat)
    requires z >= DIEM_DAT
    ensures TinhTichLuy([Dong(0, 3, z)]) == TichLuy(3, LamTron(Thang4(z) * 3 * 10, 3))
  {
    var d := Dong(0, 3, z);
    var rows := [d];
    assert rows[1..] == [];
    forall m: nat ensures m in TinChiDat(rows) <==> m == 0 {
      BangNghia(rows, m);
    }
    BangNghia(rows, 0);
    TotalOne(TinChiDat(rows), 0);
    TotalOne(DiemDat(rows), 0);
    CountsEachCourseOnce(rows);
  }

  /** Two attempts of one course count as the better one. */
  lemma HaiDong(y: nat, z: nat)
    ensures TinhTichLuy([Dong(0, 3, y), Dong(0, 3, z)]) == TinhTichLuy([Dong(0, 3, Max(y, z))])
  {
    var a, b, c := Dong(0, 3, y), Dong(0, 3, z), Dong(0, 3, Max(y, z));
    var r, s := [a, b], [c];
    assert r[1..] == [b] && s[1..] == [] && [b][1..] == [];
    forall m: nat ensures CungTotNhat(TotNhatCua(r, m), TotNhatCua(s, m)) {
      assert TotNhatCua([b], m) == if m == 0 then Some(b) else None;
    }
    CungTotNhatCungTichLuy(r, s);
  }

  /** What the examples use of such a state. */
  ghost predicate LaHaiLan(db: Db) {
    && (forall d: nat :: d in db.dangKys <==> d <= 1) && (forall d: nat :: d in db.diems <==> d <= 1)
    && db.dangKys[0] == DangKyLopHoc(0, 0) && db.dangKys[1] == DangKyLopHoc(0, 1)
    && db.diems[0].diemZ == Some(900) && db.diems[1].diemZ == Some(500)
    && (forall l: nat :: l in db.lops <==> l <= 1)
    && db.lops[0] == Lop(0, 0, 0, 2) && db.lops[1] == Lop(1, 0, 1, 3)
    && (forall s: nat :: s in db.tichLuy <==> s == 0) && db.tichLuy[0] == TichLuy(3, 400)
    && db.lopKe == 2 && db.dangKyKe == 2
  }

  lemma HaiLanNghia()
    ensures LaHaiLan(HaiLan())
  {
  }

  ghost predicate MonBaTinChi(dm: DanhMuc) {
    0 in dm.monHocs && dm.monHocs[0].soTinChi == 3
  }

  lemma HaiLanToanVen(dm: DanhMuc, db: Db)
    requires LaDanhMucNho(dm) && LaHaiLan(db)
    ensures ToanVen(dm, db)
  {
    assert forall l :: l in db.lops ==> l == 0 || l == 1;
    assert forall d :: d in db.dangKys ==> d == 0 || d == 1;
    assert db.dangKys[0] != db.dangKys[1];
  }

  lemma HaiKhoa()
    ensures SortedKeys({0, 1}) == [0, 1] && SortedKeys({1}) == [1]
  {
    var s: set<nat>, t: set<nat> := {0, 1}, {1};
    var ks, kt := SortedKeys(s), SortedKeys(t);
    assert |s| == 2 && |t| == 1;
    assert ks[0] in ks && ks[1] in ks && kt[0] in kt;
  }

  lemma KhoaHai(db: Db)
    requires LaHaiLan(db)
    ensures SortedKeys(db.dangKys.Keys) == [0, 1] && SortedKeys(BoDangKy(db, 0).dangKys.Keys) == [1]
  {
    HaiKhoa();
    var s: set<nat>, t: set<nat> := {0, 1}, {1};
    assert db.dangKys.Keys == s;
    assert BoDangKy(db, 0).dangKys.Keys == t;
  }

  lemma MotDongTu(dm: DanhMuc, db: Db, d: nat, z: nat)
    requires MonBaTinChi(dm) && DaCham(db, d) && db.dangKys[d].maSinhVien == 0 && MonCua(db, d) == 0
    requires db.diems[d].diemZ.value == z
    ensures DongCua(dm, db, d) == Dong(0, 3, z)
    ensures DongTu(dm, db, 0, [d]) == [Dong(0, 3, z)]
  {
    assert [d][1..] == [];
    assert DongTu(dm, db, 0, []) == [];
  }

  lemma ChamHaiLan(db: Db)
    requires LaHaiLan(db)
    ensures DaCham(db, 0) && DaCham(db, 1) && MonCua(db, 0) == 0 && MonCua(db, 1) == 0
  {
  }

  lemma DongHaiLan(dm: DanhMuc, db: Db)
    requires MonBaTinChi(dm) && LaHaiLan(db)
    ensures CacDong(dm, db, 0) == [Dong(0, 3, 900), Dong(0, 3, 500)]
  {
    KhoaHai(db);
    ChamHaiLan(db);
    assert [0, 1][1..] == [1];
    MotDongTu(dm, db, 1, 500);
    MotDongTu(dm, db, 0, 900);
    assert CacDong(dm, db, 0) == [Dong(0, 3, 900)] + DongTu(dm, db, 0, [1]);
  }

  lemma DongConLai(dm: DanhMuc, db: Db)
    requires MonBaTinChi(dm) && LaHaiLan(db)
    ensures CacDong(dm, BoDangKy(db, 0), 0) == [Dong(0, 3, 500)]
  {
    KhoaHai(db);
    MotDongTu(dm, BoDangKy(db, 0), 1, 500);
  }

  lemma HuyQua(dm: DanhMuc, db: Db)
    requires LaDanhMucNho(dm) && LaHaiLan(db) && ToanVen(dm, db)
    ensures HuyDangKy(dm, db, 0, 0, 5) == (BoDangKy(db, 0), ThanhCong)
  {
    var dot := dm.dots[0];
    assert dot in dm.dots && DotDangDienRa(dot, dm.sinhViens[0], 0, 5);
  }

  /** The cache is right; cancelling registration 0 succeeds; afterwards the cache says 3 credits and
      4.00, while the remaining attempt gives 1.50. */
  ghost predicate GpaCu(dm: DanhMuc, db: Db) {
    && ToanVen(dm, db) && TichLuyDung(dm, db)
    && var r := HuyDangKy(dm, db, 0, 0, 5);
       r.1 == ThanhCong && 0 in r.0.tichLuy && r.0.tichLuy[0] == TichLuy(3, 400) &&
       TinhTichLuy(CacDong(dm, r.0, 0)) == TichLuy(3, 150)
  }

  lemma TinhTruoc(dm: DanhMuc, db: Db)
    requires MonBaTinChi(dm) && LaHaiLan(db)
    ensures TinhTichLuy(CacDong(dm, db, 0)) == TichLuy(3, 400)
  {
    DongHaiLan(dm, db);
    HaiDong(900, 500);
    MotDong(900);
  }

  lemma TinhSau(dm: DanhMuc, db: Db)
    requires MonBaTinChi(dm) && LaHaiLan(db)
    ensures TinhTichLuy(CacDong(dm, BoDangKy(db, 0), 0)) == TichLuy(3, 150)
  {
    DongConLai(dm, db);
    MotDong(500);
  }

  lemma StaleGpa(dm: DanhMuc, db: Db)
    requires LaDanhMucNho(dm) && MonBaTinChi(dm) && LaHaiLan(db)
    ensures GpaCu(dm, db)
  {
    HaiLanToanVen(dm, db);
    HuyQua(dm, db);
    TinhTruoc(dm, db);
    TinhSau(dm, db);
  }

  lemma CancelCanLeaveStaleGpa()
    ensures GpaCu(DanhMucNho(), HaiLan())
  {
    DanhMucNhoNghia();
    HaiLanNghia();
    StaleGpa(DanhMucNho(), HaiLan());
  }
}
