/** A concrete request in which one unwanted name matches two required courses: the first is removed, the
    second suggested. */
module ViDuKhongMuon {
  import opened Wrappers
  import opened Collections
  import opened LichHoc
  import opened Entities
  import opened TichLuyDiem
  import opened CoSoDuLieu
  import opened ChuongTrinh
  import opened GoiYDanhSach
  import opened GoiYAnToan
  import opened GoiYDeXuat
  import opened ViDuGoiY

  /** Required courses B1 and B2, each with one class in the term; the student has no records. */
  function DanhMucHaiB(): DanhMuc {
    DanhMuc(map[0 := MonHoc("B1", BAT_BUOC, 3, None), 1 := MonHoc("B2", BAT_BUOC, 3, None)],
            map[0 := HocKy("1", "Chính", 2024, 2024, 0)], map[0 := SinhVien(0, 2024, 0)], [],
            map[0 := [KhungMon(0, 1), KhungMon(1, 1)]], {}, c => c)
  }

  function LopCua(mon: nat): LopHoc {
    LopHoc(mon, mon, 0, "L", "Lý thuyết", 10, [Buoi(mon + 2, 1, 2, 0, 100, None)], [])
  }

  function BangHaiB(): Db { Db(map[0 := LopCua(0), 1 := LopCua(1)], map[], map[], map[0 := TichLuy(0, 0)], 2, 0) }

  /** Names match when the one asked for is the beginning of the course's. */
  function YeuCauKhongB(): YeuCau {
    YeuCau((a, b) => b <= a, map[], [], KhongRo, [], [], [], [], ["B"], false, [], 0)
  }

  ghost predicate LaHaiB(dm: DanhMuc, db: Db) {
    && (forall k: nat :: k in dm.monHocs <==> k <= 1)
    && dm.monHocs[0] == MonHoc("B1", BAT_BUOC, 3, None) && dm.monHocs[1] == MonHoc("B2", BAT_BUOC, 3, None)
    && (forall k: nat :: k in dm.hocKys <==> k == 0) && dm.hocKys[0] == HocKy("1", "Chính", 2024, 2024, 0)
    && (forall k: nat :: k in dm.sinhViens <==> k == 0) && dm.sinhViens[0] == SinhVien(0, 2024, 0)
    && 0 in dm.khung && dm.khung[0] == [KhungMon(0, 1), KhungMon(1, 1)]
    && (forall k: nat :: k in db.lops <==> k <= 1) && db.lops[0] == LopCua(0) && db.lops[1] == LopCua(1)
    && db.lopKe == 2 && (forall k: nat :: k !in db.dangKys) && (forall k: nat :: k !in db.diems)
    && (forall k: nat :: k in db.tichLuy <==> k == 0)
  }

  lemma HaiBDung()
    ensures LaHaiB(DanhMucHaiB(), BangHaiB())
  {
  }

  lemma HaiBToanVen(dm: DanhMuc, db: Db)
    requires LaHaiB(dm, db)
    ensures ToanVen(dm, db) && KhungDung(dm, KhungCua(dm, dm.sinhViens[0]))
  {
  }

  function MonB(i: nat): MonHocCt {
    MonHocCt(i, if i == 0 then "B1" else "B2", BAT_BUOC, 3, 1, ChuaHoc, None, true, false, false, false, false, true)
  }

  lemma MonBNghia(dm: DanhMuc, db: Db, i: nat)
    requires LaHaiB(dm, db) && i <= 1
    ensures MonCt(dm, db, 0, 0, KhungMon(i, 1)) == MonB(i)
  {
    assert CacZ(db, 0, i) == {} && DangKyMon(db, 0, 0, i) == {};
    assert i in db.lops && db.lops[i].maMonHoc == i;
    assert '2' !in "1";
  }

  lemma HaiMonB(dm: DanhMuc, db: Db)
    requires LaHaiB(dm, db) && KhungDung(dm, KhungCua(dm, dm.sinhViens[0]))
    ensures BuildChuongTrinh(dm, db, 0, 0) == [MonB(0), MonB(1)]
  {
    MonBNghia(dm, db, 0);
    MonBNghia(dm, db, 1);
  }

  lemma LuoiBatBuoc(a: MonHocCt, b: MonHocCt, c: YeuCau, nhac: string -> bool)
    requires a.loaiMonHoc == BAT_BUOC && b.loaiMonHoc == BAT_BUOC
    ensures LuoiAnToan([a, b], c, nhac) == c
  {
    assert TU_CHON != BAT_BUOC by { assert TU_CHON[0] != BAT_BUOC[0]; }
    var rong: seq<MonHocCt> := [];
    assert [a, b][1..] == [b] && [b][1..] == rong;
    assert LuoiAnToan(rong, c, nhac) == c;
    assert LuoiAnToan([b], c, nhac) == c;
  }

  lemma ChuaDangKyGi(db: Db)
    requires forall k: nat :: k !in db.dangKys
    ensures MonDaDangKy(db, 0, 0) == {} && CoDinh(db, 0, 0) == map[]
  {
    assert forall m: nat :: m !in MonDaDangKy(db, 0, 0);
  }

  lemma LopConChoCo(db: Db, hk: nat, i: nat)
    requires i in db.lops && db.lops[i].maHocKy == hk && SiSo(db, i) < db.lops[i].siSoToiDa
    ensures var m := db.lops[i].maMonHoc; m in LopTheoMonCua(db, hk) && db.lops[i] in LopTheoMonCua(db, hk)[m]
  {
    assert db.lops[i].maMonHoc in MonConCho(db, hk);
    LopCoTrong(db, hk, db.lops[i].maMonHoc, SortedKeys(db.lops.Keys), i);
  }

  lemma {:induction false} LopCoTrong(db: Db, hk: nat, mon: nat, ids: seq<nat>, i: nat)
    requires i in ids && i in db.lops && db.lops[i].maHocKy == hk && db.lops[i].maMonHoc == mon
    requires SiSo(db, i) < db.lops[i].siSoToiDa
    ensures db.lops[i] in LopConCho(db, hk, mon, ids)
  {
    if ids[0] != i { LopCoTrong(db, hk, mon, ids[1..], i); }
  }

  lemma HaiBCanXep(v: DauVao)
    requires v.ct == [MonB(0), MonB(1)] && v.yeuCau == YeuCauKhongB() && v.daDangKy == {}
    ensures CanXep(v.ct, v.yeuCau, v.lops, v.daDangKy, v.kyDat) == ([MonB(1)], [MonB(0)])
  {
    var a, b, c := MonB(0), MonB(1), v.yeuCau;
    var rong: seq<MonHocCt> := [];
    assert [a, b][1..] == [b] && [b][1..] == rong && ["B"][1..] == [];
    assert "B" <= "B1";
    assert BatBuocCanXep(rong, c, v.kyDat) == rong;
    assert BatBuocCanXep([b], c, v.kyDat) == [b];
    assert BatBuocCanXep(v.ct, c, v.kyDat) == [a, b];
    assert c.monTuChonMuonHoc + c.monCanHocLai == [];
    assert ThemTheoTen([a, b], v.ct, c, v.lops, []) == [a, b];
    assert TimTheoTen([a, b], c, "B") == Some(a);
    assert BoMot([a, b], a) == [b];
    assert rong + [a] == [a];
    assert BoTheoTen([b], [a], c, []) == ([b], [a]);
    assert BoTheoTen([a, b], rong, c, ["B"]) == ([b], [a]);
    assert BoMa(rong, v.daDangKy) == rong;
    assert BoMa([b], v.daDangKy) == [b];
  }

  lemma B2DuocXep(v: DauVao)
    requires DauVaoDung(v) && v.ct == [MonB(0), MonB(1)] && v.yeuCau == YeuCauKhongB()
    requires v.daDangKy == {} && v.coDinh == map[] && 1 in v.lops && LopCua(1) in v.lops[1]
    ensures GoiY(v) != [] && 1 in GoiY(v)[0].chon
  {
    HaiBCanXep(v);
    BaTangHoanVi([MonB(1)], v.yeuCau, v.lops);
    var t := BaiCua(v).thuTu;
    assert MonB(1) in t;
    assert t[0] in t;
    assert LopCua(1) in BaiCua(v).UngVien(0);
    DauTienDuocXep(v, LopCua(1));
  }

  /** "B" is not wanted; B2 is suggested all the same. */
  lemma SecondMatchSuggested(nhac: string -> bool)
    ensures var dm, db, c := DanhMucHaiB(), BangHaiB(), YeuCauKhongB();
            && ToanVen(dm, db) && KhungDung(dm, KhungCua(dm, dm.sinhViens[0]))
            && GoiY(LapDauVao(dm, db, 0, 0, c, nhac)) != []
            && 1 in GoiY(LapDauVao(dm, db, 0, 0, c, nhac))[0].chon && c.khop(dm.monHocs[1].tenMonHoc, "B")
  {
    HaiBDung();
    B2VanDeXuat(DanhMucHaiB(), BangHaiB(), YeuCauKhongB(), nhac);
    assert "B" <= "B2";
  }

  lemma B2VanDeXuat(dm: DanhMuc, db: Db, c: YeuCau, nhac: string -> bool)
    requires LaHaiB(dm, db) && c == YeuCauKhongB()
    ensures ToanVen(dm, db) && KhungDung(dm, KhungCua(dm, dm.sinhViens[0]))
    ensures var ds := GoiY(LapDauVao(dm, db, 0, 0, c, nhac)); ds != [] && 1 in ds[0].chon
  {
    HaiBToanVen(dm, db);
    HaiMonB(dm, db);
    LuoiBatBuoc(MonB(0), MonB(1), c, nhac);
    ChuaDangKyGi(db);
    assert DangKyCuaLop(db, 1) == {};
    LopConChoCo(db, 0, 1);
    LapDauVaoDung(dm, db, 0, 0, c, nhac);
    B2DuocXep(LapDauVao(dm, db, 0, 0, c, nhac));
  }
}
