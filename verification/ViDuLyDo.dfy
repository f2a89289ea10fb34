/** A concrete student whose second suggestion says that all classes of a course clash although one fits,
    and, when one elective is to be filled in, lists as unplaced a course it holds. */
module ViDuLyDo {
  import opened Wrappers
  import opened Collections
  import opened LichHoc
  import opened Entities
  import opened XepLich
  import opened XepLichAnToan
  import opened XepLichNganSach
  import opened KyHieu
  import opened BienThe
  import opened BienTheSoMon
  import opened TuChon
  import opened TichLuyDiem
  import opened CoSoDuLieu
  import opened ChuongTrinh
  import opened GoiYDanhSach
  import opened GoiYDeXuat
  import opened ViDuXepLich
  import opened ViDuGoiY

  // ---------------------------------------------------------------- one course, a second class that clashes

  /** Course A has classes a1 and a2; beside what is registered only a1 fits. */
  ghost predicate BaiMotMon(b: Bai, d: BangChon, a1: LopHoc, a2: LopHoc) {
    && |b.thuTu| == 1 && b.Ma(0) == 0 && b.thuTu[0].tenMonHoc == "A" && b.UngVien(0) == [a1, a2] && 0 !in d
    && Hop(a1, d) && !Hop(a2, d) && a1.maLopHocKy == 0 && a2.maLopHocKy == 1
  }

  const A_TRUNG := [MonKhongXep("A", TrungGio)]

  lemma LanMot(b: Bai, d: BangChon, a1: LopHoc, a2: LopHoc)
    requires BaiMotMon(b, d, a1, a2)
    ensures var kq := ChayLai(b, d, map[]); kq.chon == d[0 := a1] && kq.khongXepDuoc == []
  {
    HanCheRong(b);
    var kq := Tim(b, 0, d, 0).kq;
    assert Rieng(b, 0, d);
    assert a1 in b.UngVien(0);
    ReasonExact(b, 0, d, 0);
    TimDung(b, 0, d, 0);
    CutOffNeverComplete(b, 0, d, 0);
    assert b.Ma(0) in kq.chon && LopDung(b, 0, kq.chon);
    ChiA1(b, d, a1, a2, kq.chon);
  }

  /** A class that does not fit is not the one chosen. */
  lemma KhongVua(d: BangChon, l: LopHoc, chon: BangChon, ma: nat)
    requires !Hop(l, d) && MoRong(d, chon) && ma in chon && ma !in d
    requires forall k :: k in chon && k != ma ==> !TrungNhau(chon[ma].lichHocs, chon[k].lichHocs)
    ensures chon[ma] != l
  {
    var k :| k in d && TrungNhau(l.lichHocs, d[k].lichHocs);
    assert chon[k] == d[k];
  }

  lemma ChiA1(b: Bai, d: BangChon, a1: LopHoc, a2: LopHoc, chon: BangChon)
    requires BaiMotMon(b, d, a1, a2) && AnToan(b, 0, d, chon) && 0 in chon && LopDung(b, 0, chon)
    ensures chon == d[0 := a1]
  {
    KhongVua(d, a2, chon, 0);
    forall k ensures k in chon <==> k == 0 || k in d {
      if k in chon && k !in d { assert k in MaTu(b, 0); }
    }
  }

  lemma ConA2(a1: LopHoc, a2: LopHoc)
    requires a1.maLopHocKy == 0 && a2.maLopHocKy == 1
    ensures LocLop([a1, a2], {0}) == [a2]
  {
    var rong: seq<LopHoc> := [];
    assert [a1, a2][1..] == [a2] && [a2][1..] == rong;
    assert LocLop(rong, {0}) == rong;
    assert LocLop([a2], {0}) == [a2];
  }

  /** With a1 banned the course is said to clash; the counter ends at 1. */
  lemma LanHai(b: Bai, d: BangChon, a1: LopHoc, a2: LopHoc)
    requires BaiMotMon(b, d, a1, a2)
    ensures ChayLai(b, d, map[0 := {0}]) == KetQua(d, A_TRUNG, 0) && TrongGioiHan(b, d, map[0 := {0}])
  {
    var h := HanChe(b, map[0 := {0}]);
    ConA2(a1, a2);
    assert h.UngVien(0) == [a2];
    RankingSorts(h, 0);
    assert h.XepHang(0)[0].0 in [a2];
    MotLopTrung(h, 0, d, 0, a2);
    HetMon(h, d, 1);
  }

  lemma KhacNhauA(d: BangChon, a1: LopHoc, x: KetQua, y: KetQua)
    requires x.chon == d[0 := a1] && y.chon == d && 0 !in d
    ensures !DaCo([x], y)
  {
    SignatureInjective(x.chon, y.chon);
    assert 0 in LopCuaMon(x.chon);
  }

  lemma VongDau(b: Bai, d: BangChon, x: KetQua)
    requires |b.thuTu| == 1 && b.Ma(0) == 0 && |b.UngVien(0)| == 2 && ChayLai(b, d, map[]) == x
    ensures TimNhieu(b, d, 5) == CacBienThe(b, d, 5, b.thuTu, [x])
  {
    var mons := b.thuTu;
    assert mons[1..] == [];
    assert NhieuLuaChon(b, mons) == mons;
    assert [] + [x] == [x];
  }

  lemma VongHai(b: Bai, d: BangChon, mons: seq<MonHocCt>, x: KetQua, y: KetQua, hai: seq<KetQua>)
    requires |mons| == 1 && mons[0].maMonHoc == 0 && DaDung([x], 0) == {0} && ChayLai(b, d, map[0 := {0}]) == y
    requires !DaCo([x], y) && hai == [x] + [y]
    ensures CacBienThe(b, d, 5, mons, [x]) == hai
  {
    assert mons[1..] == [];
    VongMoi(b, d, 5, mons, [x], {0}, y, hai);
    VongHet(b, d, hai);
  }

  lemma VongHet(b: Bai, d: BangChon, ds: seq<KetQua>)
    ensures CacBienThe(b, d, 5, [], ds) == ds
  {
  }

  lemma HaiKetQua(b: Bai, d: BangChon, a1: LopHoc, x: KetQua, y: KetQua)
    requires |b.thuTu| == 1 && b.Ma(0) == 0 && |b.UngVien(0)| == 2 && 0 !in d && a1.maLopHocKy == 0
    requires ChayLai(b, d, map[]) == x && ChayLai(b, d, map[0 := {0}]) == y && x.chon == d[0 := a1] && y.chon == d
    ensures TimNhieu(b, d, 5) == [x] + [y]
  {
    KhacNhauA(d, a1, x, y);
    DungA1(x, a1);
    VongDau(b, d, x);
    VongHai(b, d, b.thuTu, x, y, [x] + [y]);
  }

  lemma HaiLan(b: Bai, d: BangChon, a1: LopHoc, a2: LopHoc)
    requires BaiMotMon(b, d, a1, a2)
    ensures var ds := TimNhieu(b, d, 5);
            |ds| == 2 && ds[0].chon == d[0 := a1] && ds[0].khongXepDuoc == [] && ds[1] == KetQua(d, A_TRUNG, 0)
  {
    LanMot(b, d, a1, a2);
    LanHai(b, d, a1, a2);
    HaiKetQua(b, d, a1, ChayLai(b, d, map[]), KetQua(d, A_TRUNG, 0));
  }

  lemma DungA1(x: KetQua, a1: LopHoc)
    requires 0 in x.chon && x.chon[0] == a1 && a1.maLopHocKy == 0
    ensures DaDung([x], 0) == {0}
  {
    assert x in [x];
  }

  // ---------------------------------------------------------------- the tables

  function LopVi(ma: nat, mon: nat, thu: int): LopHoc {
    LopHoc(ma, mon, 0, "L", "Lý thuyết", 10, [Buoi(thu, 1, 2, 0, 100, None)], [])
  }

  /** Elective A has a class on Monday and one on Tuesday; the student is registered in another course on
      Tuesday. */
  function DanhMucA(): DanhMuc {
    DanhMuc(map[0 := MonHoc("A", TU_CHON, 3, None), 1 := MonHoc("R", TU_CHON, 3, None)],
            map[0 := HocKy("1", "Chính", 2024, 2024, 0)], map[0 := SinhVien(0, 2024, 0)], [],
            map[0 := [KhungMon(0, 1)]], {}, c => c)
  }

  function BangA(): Db {
    Db(map[0 := LopVi(0, 0, 2), 1 := LopVi(1, 0, 3), 2 := LopVi(2, 1, 3)], map[0 := DangKyLopHoc(0, 2)], map[],
       map[0 := TichLuy(0, 0)], 3, 1)
  }

  ghost predicate LaA(dm: DanhMuc, db: Db) {
    && (forall k: nat :: k in dm.monHocs <==> k <= 1) && dm.monHocs[0] == MonHoc("A", TU_CHON, 3, None)
    && (forall k: nat :: k in dm.hocKys <==> k == 0) && dm.hocKys[0] == HocKy("1", "Chính", 2024, 2024, 0)
    && (forall k: nat :: k in dm.sinhViens <==> k == 0) && dm.sinhViens[0] == SinhVien(0, 2024, 0)
    && 0 in dm.khung && dm.khung[0] == [KhungMon(0, 1)]
    && (forall k: nat :: k in db.lops <==> k <= 2) && db.lopKe == 3
    && db.lops[0] == LopVi(0, 0, 2) && db.lops[1] == LopVi(1, 0, 3) && db.lops[2] == LopVi(2, 1, 3)
    && (forall k: nat :: k in db.dangKys <==> k == 0) && db.dangKys[0] == DangKyLopHoc(0, 2) && db.dangKyKe == 1
    && (forall k: nat :: k !in db.diems) && (forall k: nat :: k in db.tichLuy <==> k == 0)
  }

  lemma ADung()
    ensures LaA(DanhMucA(), BangA())
  {
  }

  lemma AToanVen(dm: DanhMuc, db: Db)
    requires LaA(dm, db)
    ensures ToanVen(dm, db) && KhungDung(dm, KhungCua(dm, dm.sinhViens[0]))
  {
    assert forall l :: l in db.lops ==> l == 0 || l == 1 || l == 2;
  }

  function MonA(): MonHocCt {
    MonHocCt(0, "A", TU_CHON, 3, 1, ChuaHoc, None, true, false, false, false, false, true)
  }

  lemma MonANghia(dm: DanhMuc, db: Db)
    requires LaA(dm, db) && KhungDung(dm, KhungCua(dm, dm.sinhViens[0]))
    ensures BuildChuongTrinh(dm, db, 0, 0) == [MonA()]
  {
    assert CacZ(db, 0, 0) == {} && DangKyMon(db, 0, 0, 0) == {};
    assert 0 in db.lops && db.lops[0].maMonHoc == 0;
    assert TU_CHON != BAT_BUOC by { assert TU_CHON[0] != BAT_BUOC[0]; }
    assert MonCt(dm, db, 0, 0, KhungMon(0, 1)) == MonA();
  }

  lemma BaKhoa()
    ensures SortedKeys({0, 1, 2}) == [0, 1, 2]
  {
    var s: set<nat> := {0, 1, 2};
    var ids := SortedKeys(s);
    assert |s| == 3;
    assert ids[0] in ids && ids[1] in ids && ids[2] in ids;
    BaSo(ids);
  }

  lemma BaSo(ids: seq<nat>)
    requires |ids| == 3 && ids[0] < ids[1] < ids[2] <= 2
    ensures ids == [0, 1, 2]
  {
  }

  lemma ConChoA(db: Db)
    requires SiSo(db, 0) == 0 && SiSo(db, 1) == 0 && 0 in db.lops && 1 in db.lops && 2 in db.lops
    requires db.lops[0] == LopVi(0, 0, 2) && db.lops[1] == LopVi(1, 0, 3) && db.lops[2] == LopVi(2, 1, 3)
    ensures LopConCho(db, 0, 0, [0, 1, 2]) == [LopVi(0, 0, 2), LopVi(1, 0, 3)]
  {
    var rong: seq<nat> := [];
    assert [0, 1, 2][1..] == [1, 2] && [1, 2][1..] == [2] && [2][1..] == rong;
    assert LopConCho(db, 0, 0, rong) == [];
    assert LopConCho(db, 0, 0, [2]) == [];
    assert LopConCho(db, 0, 0, [1, 2]) == [LopVi(1, 0, 3)];
  }

  lemma SiSoA(dm: DanhMuc, db: Db)
    requires LaA(dm, db)
    ensures SiSo(db, 0) == 0 && SiSo(db, 1) == 0
  {
    assert DangKyCuaLop(db, 0) == {} && DangKyCuaLop(db, 1) == {};
  }

  lemma KhoaA(dm: DanhMuc, db: Db)
    requires LaA(dm, db)
    ensures SortedKeys(db.lops.Keys) == [0, 1, 2]
  {
    var s: set<nat> := {0, 1, 2};
    assert db.lops.Keys == s;
    BaKhoa();
  }

  lemma LopTheoMonA(dm: DanhMuc, db: Db)
    requires LaA(dm, db)
    ensures var lops := LopTheoMonCua(db, 0); 0 in lops && lops[0] == [LopVi(0, 0, 2), LopVi(1, 0, 3)]
  {
    SiSoA(dm, db);
    ConChoA(db);
    KhoaA(dm, db);
    assert db.lops[0].maMonHoc in MonConCho(db, 0);
  }

  lemma DaDangKyA(dm: DanhMuc, db: Db)
    requires LaA(dm, db)
    ensures MonDaDangKy(db, 0, 0) == {1} && CoDinh(db, 0, 0) == map[1 := LopVi(2, 1, 3)]
  {
    var s: set<nat> := {1};
    forall m: nat ensures m in MonDaDangKy(db, 0, 0) <==> m == 1 {
      if m == 1 { assert db.dangKys[0].maSinhVien == 0 && db.lops[2].maMonHoc == 1; }
    }
    assert MonDaDangKy(db, 0, 0) == s;
    DangKyMonTrongLop(db, 0, 0, 1);
    var d := Least(DangKyMon(db, 0, 0, 1));
    assert d == 0;
  }

  // ---------------------------------------------------------------- the suggestions

  ghost predicate LaDauVaoA(v: DauVao, so: int) {
    && v.ct == [MonA()] && v.yeuCau == YeuCauB(["A"], [], so) && v.daDangKy == {1}
    && v.coDinh == map[1 := LopVi(2, 1, 3)] && 0 in v.lops && v.lops[0] == [LopVi(0, 0, 2), LopVi(1, 0, 3)]
  }

  lemma DauVaoANghia(dm: DanhMuc, db: Db, so: int, nhac: string -> bool)
    requires LaA(dm, db) && KhungDung(dm, KhungCua(dm, dm.sinhViens[0]))
    ensures LaDauVaoA(LapDauVao(dm, db, 0, 0, YeuCauB(["A"], [], so), nhac), so)
  {
    var c := YeuCauB(["A"], [], so);
    assert "A" in c.monTuChonMuonHoc && c.khop("A", "A");
    MonANghia(dm, db);
    LuoiB(MonA(), c, nhac);
    LopTheoMonA(dm, db);
    DaDangKyA(dm, db);
  }

  lemma HopVi(thu: int, d: BangChon)
    requires d == map[1 := LopVi(2, 1, 3)]
    ensures forall ma :: Hop(LopVi(ma, 0, thu), d) <==> thu != 3
  {
    forall ma ensures Hop(LopVi(ma, 0, thu), d) <==> thu != 3 {
      var x, y := LopVi(ma, 0, thu).lichHocs, d[1].lichHocs;
      assert x[0] in x && y[0] in y;
      if thu == 3 { assert BuoiTrungNhau(x[0], y[0]) && TrungVoi(x[0], y); }
    }
  }

  lemma BaiANghia(v: DauVao, so: int)
    requires LaDauVaoA(v, so)
    ensures BaiMotMon(BaiCua(v), v.coDinh, LopVi(0, 0, 2), LopVi(1, 0, 3)) && DauVaoDung(v)
    ensures CanXep(v.ct, v.yeuCau, v.lops, v.daDangKy, v.kyDat).1 == []
  {
    MuonMotMon(v, MonA(), so);
    HopVi(2, v.coDinh);
    HopVi(3, v.coDinh);
    assert v.coDinh.Keys == {1};
  }

  /** Only course 0 can be added. */
  lemma ChiCoA(v: DauVao, so: int, chon: BangChon)
    requires LaDauVaoA(v, so) && DeXuatDung(v, chon)
    ensures chon == v.coDinh || (0 in chon && chon == v.coDinh[0 := LopVi(0, 0, 2)])
  {
    forall k | k in chon ensures k == 0 || k == 1 {
      if k !in v.coDinh { assert MonMoi(v, k, chon[k]); }
    }
    assert 1 in v.coDinh && 1 in chon && chon[1] == v.coDinh[1];
    if 0 in chon {
      assert MonMoi(v, 0, chon[0]);
      HopVi(3, v.coDinh);
      assert !Hop(LopVi(1, 0, 3), v.coDinh);
      KhongVua(v.coDinh, LopVi(1, 0, 3), chon, 0);
    }
  }

  lemma DienA(v: DauVao, so: int, kq: KetQua)
    requires LaDauVaoA(v, so) && 0 <= so <= 1 && DauVaoDung(v) && DeXuatDung(v, kq.chon)
    requires CanXep(v.ct, v.yeuCau, v.lops, v.daDangKy, v.kyDat).1 == []
    requires kq.chon == v.coDinh || kq.chon == v.coDinh[0 := LopVi(0, 0, 2)]
    ensures XayDungKetQua(v, kq).chon ==
            if kq.chon == v.coDinh && so == 0 then v.coDinh else v.coDinh[0 := LopVi(0, 0, 2)]
  {
    var dx := XayDungKetQua(v, kq);
    ElectiveNoteTrue(v, kq);
    ChiCoA(v, so, dx.chon);
    ConVuaA(v, so);
    if kq.chon != v.coDinh { assert 0 in kq.chon; }
  }

  lemma ConVuaA(v: DauVao, so: int)
    requires LaDauVaoA(v, so)
    ensures MonA() in v.ct && LaUngVien(MonA(), v.yeuCau, v.daDangKy, v.coDinh, [], v.kyDat)
    ensures !HetCach(MonA(), v.lops, v.coDinh)
  {
    HopVi(2, v.coDinh);
    assert LopVi(0, 0, 2) in v.lops[0] && Hop(LopVi(0, 0, 2), v.coDinh);
  }

  /** The two suggestions, with `so` electives to be filled in. */
  ghost predicate HaiGoiYA(v: DauVao, so: int) {
    var a1 := LopVi(0, 0, 2);
    && |GoiY(v)| == 2 && GoiY(v)[0].chon == v.coDinh[0 := a1] && GoiY(v)[0].khongXepDuoc == []
    && GoiY(v)[1].chon == (if so == 0 then v.coDinh else v.coDinh[0 := a1]) && GoiY(v)[1].khongXepDuoc == A_TRUNG
  }

  lemma GoiYA(v: DauVao, so: int)
    requires LaDauVaoA(v, so) && 0 <= so <= 1
    ensures HaiGoiYA(v, so)
  {
    var b, a1, a2 := BaiCua(v), LopVi(0, 0, 2), LopVi(1, 0, 3);
    BaiANghia(v, so);
    HaiLan(b, v.coDinh, a1, a2);
    BienTheAnToan(v);
    var kqs := TimNhieu(b, v.coDinh, 5);
    assert kqs[0] in kqs && kqs[1] in kqs;
    KetQuaDung(v, kqs[0]);
    KetQuaDung(v, kqs[1]);
    assert 0 in kqs[0].chon && 0 !in v.coDinh;
    DienA(v, so, kqs[0]);
    DienA(v, so, kqs[1]);
  }

  /** The second suggestion says that all classes of A clash; the first class of A fits. */
  ghost predicate LyDoSai(v: DauVao, db: Db) {
    && |GoiY(v)| == 2 && GoiY(v)[1].khongXepDuoc == A_TRUNG
    && 0 in db.lops && 0 in v.lops && db.lops[0] in v.lops[0] && Hop(db.lops[0], GoiY(v)[1].chon)
  }

  /** The second suggestion is the first one again, holds A and calls it unplaced. */
  ghost predicate TraLaiMaNeu(v: DauVao) {
    && |GoiY(v)| == 2 && GoiY(v)[1].chon == GoiY(v)[0].chon && 0 in GoiY(v)[1].chon
    && GoiY(v)[0].khongXepDuoc == [] && GoiY(v)[1].khongXepDuoc == A_TRUNG
  }

  lemma SaiKhiKhongDien(v: DauVao, dm: DanhMuc, db: Db)
    requires LaDauVaoA(v, 0) && LaA(dm, db)
    ensures LyDoSai(v, db)
  {
    GoiYA(v, 0);
    HopVi(2, v.coDinh);
    assert db.lops[0] in v.lops[0];
  }

  lemma NeuKhiDien(v: DauVao)
    requires LaDauVaoA(v, 1)
    ensures TraLaiMaNeu(v)
  {
    GoiYA(v, 1);
  }

  /** A is asked for by name. The second suggestion leaves it out and says that all its classes clash,
      although the one on Monday fits. */
  lemma LaterReasonWrong(nhac: string -> bool)
    ensures var dm, db := DanhMucA(), BangA();
            && ToanVen(dm, db) && KhungDung(dm, KhungCua(dm, dm.sinhViens[0]))
            && LyDoSai(LapDauVao(dm, db, 0, 0, YeuCauB(["A"], [], 0), nhac), db)
  {
    var dm, db := DanhMucA(), BangA();
    ADung();
    AToanVen(dm, db);
    DauVaoANghia(dm, db, 0, nhac);
    SaiKhiKhongDien(LapDauVao(dm, db, 0, 0, YeuCauB(["A"], [], 0), nhac), dm, db);
  }

  /** With one more elective wanted the fill puts A back. */
  lemma PutBackListed(nhac: string -> bool)
    ensures var dm, db := DanhMucA(), BangA();
            && ToanVen(dm, db) && KhungDung(dm, KhungCua(dm, dm.sinhViens[0]))
            && TraLaiMaNeu(LapDauVao(dm, db, 0, 0, YeuCauB(["A"], [], 1), nhac))
  {
    var dm, db := DanhMucA(), BangA();
    ADung();
    AToanVen(dm, db);
    DauVaoANghia(dm, db, 1, nhac);
    NeuKhiDien(LapDauVao(dm, db, 0, 0, YeuCauB(["A"], [], 1), nhac));
  }
}
