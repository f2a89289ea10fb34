/** Concrete requests on which the suggestions and the registrar, or the suggestions and the student's
    wishes, disagree. */
module ViDuGoiY {
  import opened Wrappers
  import opened Collections
  import opened LichHoc
  import opened Entities
  import opened XepLich
  import opened XepLichAnToan
  import opened XepLichNganSach
  import opened BienThe
  import opened TichLuyDiem
  import opened CoSoDuLieu
  import opened DangKyHocPhan
  import opened ChuongTrinh
  import opened GoiYDanhSach
  import opened GoiYAnToan
  import opened GoiYDeXuat
  import opened GoiYDangKy
  import opened HocKyHienTai

  // ---------------------------------------------------------------- one elective, one class

  /** A student without records; the curriculum is elective B, which has one class in the open term and
      may need elective A. */
  function DanhMucB(tienQuyet: Option<nat>): DanhMuc {
    DanhMuc(map[0 := MonHoc("A", TU_CHON, 3, None), 1 := MonHoc("B", TU_CHON, 3, tienQuyet)],
            map[0 := HocKy("1", "Chính", 2024, 2024, 0)], map[0 := SinhVien(0, 2024, 0)],
            [DotDangKy(0, 0, 10, true, true, None, None)], map[0 := [KhungMon(1, 1)]], {}, c => c)
  }

  function LopB(): LopHoc { LopHoc(0, 1, 0, "L", "Lý thuyết", 10, [Buoi(2, 1, 2, 0, 100, None)], []) }

  function BangB(): Db { Db(map[0 := LopB()], map[], map[], map[0 := TichLuy(0, 0)], 1, 0) }

  function YeuCauB(muon: seq<string>, khongMuon: seq<string>, so: int): YeuCau {
    YeuCau((a, b) => a == b, map[], [], KhongRo, [], [], muon, [], khongMuon, false, [], so)
  }

  ghost predicate LaDanhMucB(dm: DanhMuc, tienQuyet: Option<nat>) {
    && (forall k: nat :: k in dm.monHocs <==> k <= 1) && dm.monHocs[1] == MonHoc("B", TU_CHON, 3, tienQuyet)
    && (forall k: nat :: k in dm.hocKys <==> k == 0) && dm.hocKys[0] == HocKy("1", "Chính", 2024, 2024, 0)
    && (forall k: nat :: k in dm.sinhViens <==> k == 0) && dm.sinhViens[0] == SinhVien(0, 2024, 0)
    && dm.dots == [DotDangKy(0, 0, 10, true, true, None, None)]
    && 0 in dm.khung && dm.khung[0] == [KhungMon(1, 1)]
  }

  ghost predicate LaBangB(db: Db) {
    && (forall k: nat :: k in db.lops <==> k == 0) && db.lops[0] == LopB() && db.lopKe == 1
    && (forall k: nat :: k !in db.dangKys) && (forall k: nat :: k !in db.diems)
    && (forall k: nat :: k in db.tichLuy <==> k == 0)
  }

  lemma BangBDung(tienQuyet: Option<nat>)
    ensures LaDanhMucB(DanhMucB(tienQuyet), tienQuyet) && LaBangB(BangB())
  {
  }

  lemma BangBToanVen(dm: DanhMuc, db: Db, tienQuyet: Option<nat>)
    requires LaDanhMucB(dm, tienQuyet) && LaBangB(db)
    ensures ToanVen(dm, db) && MotLopMoiMon(db, 0, 0) && KhungDung(dm, KhungCua(dm, dm.sinhViens[0]))
  {
  }

  function MonB(tienQuyet: Option<nat>): MonHocCt {
    MonHocCt(1, "B", TU_CHON, 3, 1, ChuaHoc, None, true, false, false, tienQuyet.Some?, false, tienQuyet.None?)
  }

  lemma MonBNghia(dm: DanhMuc, db: Db, tienQuyet: Option<nat>)
    requires LaDanhMucB(dm, tienQuyet) && LaBangB(db) && KhungDung(dm, KhungCua(dm, dm.sinhViens[0]))
    ensures BuildChuongTrinh(dm, db, 0, 0) == [MonB(tienQuyet)]
  {
    forall m: nat ensures CacZ(db, 0, m) == {} && DangKyMon(db, 0, 0, m) == {} {
    }
    assert TU_CHON != BAT_BUOC by { assert TU_CHON[0] != BAT_BUOC[0]; }
    assert MonCt(dm, db, 0, 0, KhungMon(1, 1)) == MonB(tienQuyet);
  }

  lemma LuoiB(m: MonHocCt, c: YeuCau, nhac: string -> bool)
    requires KhopMotTrong(c, m.tenMonHoc, c.monTuChonMuonHoc) || KhopMotTrong(c, m.tenMonHoc, c.monKhongMuonHoc)
    ensures LuoiAnToan([m], c, nhac) == c
  {
    var rong: seq<MonHocCt> := [];
    assert [m][1..] == rong;
    assert LuoiAnToan(rong, c, nhac) == c;
  }

  lemma LopConChoB(db: Db)
    requires LaBangB(db)
    ensures 1 in LopTheoMonCua(db, 0) && LopTheoMonCua(db, 0)[1] == [LopB()]
  {
    assert DangKyCuaLop(db, 0) == {};
    var ids := SortedKeys(db.lops.Keys);
    assert 0 in ids;
    assert forall i: nat :: i < |ids| ==> ids[i] in ids;
    assert ids == [0];
    var rong: seq<nat> := [];
    assert ids[1..] == rong;
    assert LopConCho(db, 0, 1, rong) == [];
    assert LopConCho(db, 0, 1, ids) == [LopB()];
  }

  lemma ChuaDangKyB(db: Db)
    requires LaBangB(db)
    ensures MonDaDangKy(db, 0, 0) == {} && CoDinh(db, 0, 0) == map[]
  {
    assert forall m: nat :: m !in MonDaDangKy(db, 0, 0);
  }

  /** What is read from the tables for this student. */
  ghost predicate LaDauVaoB(v: DauVao, c: YeuCau, tienQuyet: Option<nat>) {
    && v.ct == [MonB(tienQuyet)] && v.yeuCau == c && v.daDangKy == {} && v.coDinh == map[]
    && 1 in v.lops && v.lops[1] == [LopB()]
  }

  lemma DauVaoBNghia(dm: DanhMuc, db: Db, c: YeuCau, nhac: string -> bool, tienQuyet: Option<nat>)
    requires LaDanhMucB(dm, tienQuyet) && LaBangB(db) && KhungDung(dm, KhungCua(dm, dm.sinhViens[0]))
    requires KhopMotTrong(c, "B", c.monTuChonMuonHoc) || KhopMotTrong(c, "B", c.monKhongMuonHoc)
    ensures LaDauVaoB(LapDauVao(dm, db, 0, 0, c, nhac), c, tienQuyet)
  {
    MonBNghia(dm, db, tienQuyet);
    LuoiB(MonB(tienQuyet), c, nhac);
    LopConChoB(db);
    ChuaDangKyB(db);
  }

  lemma DauVaoBDung(v: DauVao, c: YeuCau, tienQuyet: Option<nat>)
    requires LaDauVaoB(v, c, tienQuyet)
    ensures DauVaoDung(v)
  {
    assert forall k: nat :: k !in v.coDinh.Keys;
  }

  // ---------------------------------------------------------------- suggested, and then refused

  /** A curriculum of one elective, asked for by name: it is the one course to place. */
  lemma MuonMotMon(v: DauVao, m: MonHocCt, so: int)
    requires v.ct == [m] && v.yeuCau == YeuCauB([m.tenMonHoc], [], so)
    requires m.loaiMonHoc == TU_CHON && m.trangThai != DaDat && m.maMonHoc in v.lops && m.maMonHoc !in v.daDangKy
    ensures BaiCua(v).thuTu == [m] && CanXep(v.ct, v.yeuCau, v.lops, v.daDangKy, v.kyDat).1 == []
  {
    var c, ten := v.yeuCau, m.tenMonHoc;
    var rong: seq<MonHocCt> := [];
    assert TU_CHON != BAT_BUOC by { assert TU_CHON[0] != BAT_BUOC[0]; }
    assert [m][1..] == rong && [ten][1..] == [];
    assert BatBuocCanXep(rong, c, v.kyDat) == rong;
    assert BatBuocCanXep(v.ct, c, v.kyDat) == rong;
    assert TimTheoTen(v.ct, c, ten) == Some(m);
    var tens := c.monTuChonMuonHoc + c.monCanHocLai;
    assert tens == [ten];
    assert ThemTheoTen(rong + [m], v.ct, c, v.lops, []) == [m];
    assert ThemTheoTen(rong, v.ct, c, v.lops, tens) == [m];
    assert BoTheoTen([m], rong, c, []) == ([m], rong);
    assert BoMa(rong, v.daDangKy) == rong;
    assert BoMa([m], v.daDangKy) == [m];
    assert CanXep(v.ct, c, v.lops, v.daDangKy, v.kyDat) == ([m], rong);
    assert TangMot([m], rong, c, []) == rong;
    assert ten in tens;
    assert TangHai(rong, rong, c) == rong;
    assert TangHai([m], rong, c) == [m];
    assert Tru(rong, rong) == rong;
    assert Tru([m], rong) == [m];
    assert Tru([m], [m]) == rong;
    assert TangBa([m], rong, [m], v.lops) == rong;
  }

  /** The first course to place is placed if some class of it fits beside the registered ones. */
  lemma DauTienDuocXep(v: DauVao, l: LopHoc)
    requires DauVaoDung(v) && BaiCua(v).thuTu != [] && l in BaiCua(v).UngVien(0) && Hop(l, v.coDinh)
    ensures GoiY(v) != [] && BaiCua(v).Ma(0) in GoiY(v)[0].chon
  {
    var b := BaiCua(v);
    SolverInputDistinct(v);
    VariantsSound(b, v.coDinh, SO_LUONG_GOI_Y);
    var kq := Tim(b, 0, v.coDinh, 0).kq;
    ReasonExact(b, 0, v.coDinh, 0);
    TimDung(b, 0, v.coDinh, 0);
    KetQuaDung(v, kq);
    ElectiveNoteTrue(v, kq);
  }

  /** Elective B, asked for by name without its prerequisite, is suggested; registering it is refused. */
  lemma NamedCourseRefused(nhac: string -> bool)
    ensures var dm, db, c := DanhMucB(Some(0)), BangB(), YeuCauB(["B"], [], 0);
            && ToanVen(dm, db) && KhungDung(dm, KhungCua(dm, dm.sinhViens[0]))
            && GoiY(LapDauVao(dm, db, 0, 0, c, nhac)) != []
            && 1 in GoiY(LapDauVao(dm, db, 0, 0, c, nhac))[0].chon
            && GoiY(LapDauVao(dm, db, 0, 0, c, nhac))[0].chon[1] == db.lops[0]
            && KiemTraDangKy(dm, db, 0, 0, 5) == ThieuTienQuyet
  {
    BangBDung(Some(0));
    BBiTuChoi(DanhMucB(Some(0)), BangB(), YeuCauB(["B"], [], 0), nhac);
  }

  lemma BBiTuChoi(dm: DanhMuc, db: Db, c: YeuCau, nhac: string -> bool)
    requires LaDanhMucB(dm, Some(0)) && LaBangB(db) && c == YeuCauB(["B"], [], 0)
    ensures ToanVen(dm, db) && KhungDung(dm, KhungCua(dm, dm.sinhViens[0]))
    ensures var ds := GoiY(LapDauVao(dm, db, 0, 0, c, nhac));
            ds != [] && 1 in ds[0].chon && ds[0].chon[1] == db.lops[0]
    ensures KiemTraDangKy(dm, db, 0, 0, 5) == ThieuTienQuyet
  {
    BangBToanVen(dm, db, Some(0));
    assert "B" in c.monTuChonMuonHoc && c.khop("B", "B");
    DauVaoBNghia(dm, db, c, nhac, Some(0));
    BDuocXep(LapDauVao(dm, db, 0, 0, c, nhac), db);
    BThieuTienQuyet(dm, db);
  }

  lemma BDuocXep(v: DauVao, db: Db)
    requires LaDauVaoB(v, YeuCauB(["B"], [], 0), Some(0)) && LaBangB(db)
    ensures GoiY(v) != [] && 1 in GoiY(v)[0].chon && GoiY(v)[0].chon[1] == db.lops[0]
  {
    DauVaoBDung(v, v.yeuCau, Some(0));
    MuonMotMon(v, MonB(Some(0)), 0);
    assert LopB() in BaiCua(v).UngVien(0);
    DauTienDuocXep(v, LopB());
    SuggestionsSound(v);
    assert DeXuatDung(v, GoiY(v)[0].chon);
    assert MonMoi(v, 1, GoiY(v)[0].chon[1]);
  }

  lemma BThieuTienQuyet(dm: DanhMuc, db: Db)
    requires LaDanhMucB(dm, Some(0)) && LaBangB(db) && ToanVen(dm, db)
    ensures KiemTraDangKy(dm, db, 0, 0, 5) == ThieuTienQuyet
  {
    assert DangKyCuaLop(db, 0) == {};
    forall m: nat ensures CacZ(db, 0, m) == {} && DangKyMon(db, 0, 0, m) == {} {
    }
    assert dm.dots[0] in dm.dots && DotDangDienRa(dm.dots[0], dm.sinhViens[0], 0, 5);
  }

  // ---------------------------------------------------------------- unwanted, and filled in all the same

  lemma KhongMuonBCanXep(v: DauVao)
    requires LaDauVaoB(v, YeuCauB([], ["B"], 1), None)
    ensures BaiCua(v).thuTu == [] && CanXep(v.ct, v.yeuCau, v.lops, v.daDangKy, v.kyDat).1 == []
  {
    var m, c := MonB(None), v.yeuCau;
    var rong: seq<MonHocCt> := [];
    assert TU_CHON != BAT_BUOC by { assert TU_CHON[0] != BAT_BUOC[0]; }
    assert [m][1..] == rong && ["B"][1..] == [];
    assert BatBuocCanXep(rong, c, v.kyDat) == rong;
    assert BatBuocCanXep(v.ct, c, v.kyDat) == rong;
    assert ThemTheoTen(rong, v.ct, c, v.lops, c.monTuChonMuonHoc + c.monCanHocLai) == rong;
    assert BoTheoTen(rong, rong, c, []) == (rong, rong);
    assert BoTheoTen(rong, rong, c, ["B"]) == (rong, rong);
    assert BoMa(rong, v.daDangKy) == rong;
    assert CanXep(v.ct, c, v.lops, v.daDangKy, v.kyDat) == (rong, rong);
    BaTangHoanVi(rong, c, v.lops);
    assert BaiCua(v).thuTu == ThuTuGiai(rong, c, v.lops);
  }

  lemma ChiCoB(v: DauVao, chon: BangChon)
    requires LaDauVaoB(v, v.yeuCau, None) && DeXuatDung(v, chon)
    ensures forall k :: k in chon ==> k == 1
  {
    forall k | k in chon ensures k == 1 {
      assert MonMoi(v, k, chon[k]);
    }
  }

  lemma BDuocDien(v: DauVao)
    requires LaDauVaoB(v, YeuCauB([], ["B"], 1), None)
    ensures GoiY(v) != [] && 1 in GoiY(v)[0].chon
  {
    var b := BaiCua(v);
    DauVaoBDung(v, v.yeuCau, None);
    KhongMuonBCanXep(v);
    SolverInputDistinct(v);
    VariantsSound(b, v.coDinh, SO_LUONG_GOI_Y);
    var kq := Tim(b, 0, v.coDinh, 0).kq;
    assert kq.chon == v.coDinh;
    KetQuaDung(v, kq);
    ElectiveNoteTrue(v, kq);
    var dx := GoiY(v)[0];
    ChiCoB(v, dx.chon);
    if 1 !in dx.chon {
      assert MonB(None) in v.ct && LaUngVien(MonB(None), v.yeuCau, v.daDangKy, dx.chon, [], v.kyDat);
      assert LopB() in v.lops[1] && Hop(LopB(), dx.chon);
    }
  }

  /** Elective B, named as unwanted, is filled in when one more elective is asked for. */
  lemma UnwantedFilledIn(nhac: string -> bool)
    ensures var dm, db, c := DanhMucB(None), BangB(), YeuCauB([], ["B"], 1);
            && ToanVen(dm, db) && KhungDung(dm, KhungCua(dm, dm.sinhViens[0]))
            && GoiY(LapDauVao(dm, db, 0, 0, c, nhac)) != []
            && 1 in GoiY(LapDauVao(dm, db, 0, 0, c, nhac))[0].chon && c.khop("B", "B") && "B" in c.monKhongMuonHoc
  {
    var dm, db, c := DanhMucB(None), BangB(), YeuCauB([], ["B"], 1);
    BangBDung(None);
    BangBToanVen(dm, db, None);
    assert "B" in c.monKhongMuonHoc && c.khop("B", "B");
    DauVaoBNghia(dm, db, c, nhac, None);
    BDuocDien(LapDauVao(dm, db, 0, 0, c, nhac));
  }

  // ---------------------------------------------------------------- the newest round, and an open one

  /** Registration is open in term 0; a later round, for withdrawals only, is under way in term 1. */
  function DanhMucHaiDot(): DanhMuc {
    DanhMuc(map[0 := MonHoc("A", TU_CHON, 3, None)],
            map[0 := HocKy("1", "Chính", 2024, 2024, 0), 1 := HocKy("2", "Chính", 2024, 2025, 150)],
            map[0 := SinhVien(0, 2024, 0)],
            [DotDangKy(0, 0, 100, true, true, None, None), DotDangKy(1, 10, 100, false, true, None, None)],
            map[], {}, c => c)
  }

  function LopA(ma: nat, hk: nat): LopHoc {
    LopHoc(ma, 0, hk, "L", "Lý thuyết", 10, [Buoi(2, 1, 2, 0, 100, None)], [])
  }

  function BangHaiKy(): Db { Db(map[0 := LopA(0, 0), 1 := LopA(1, 1)], map[], map[], map[0 := TichLuy(0, 0)], 2, 0) }

  ghost predicate LaHaiDot(dm: DanhMuc) {
    && (forall k: nat :: k in dm.monHocs <==> k == 0) && dm.monHocs[0] == MonHoc("A", TU_CHON, 3, None)
    && (forall k: nat :: k in dm.hocKys <==> k <= 1)
    && (forall k: nat :: k in dm.sinhViens <==> k == 0) && dm.sinhViens[0] == SinhVien(0, 2024, 0)
    && |dm.dots| == 2 && dm.dots[0] == DotDangKy(0, 0, 100, true, true, None, None)
    && dm.dots[1] == DotDangKy(1, 10, 100, false, true, None, None)
  }

  ghost predicate LaHaiKy(db: Db) {
    && (forall k: nat :: k in db.lops <==> k <= 1) && db.lopKe == 2
    && db.lops[0] == LopA(0, 0) && db.lops[1] == LopA(1, 1)
    && (forall k: nat :: k !in db.dangKys) && (forall k: nat :: k !in db.diems)
    && (forall k: nat :: k in db.tichLuy <==> k == 0)
  }

  lemma HaiDotDung()
    ensures LaHaiDot(DanhMucHaiDot()) && LaHaiKy(BangHaiKy())
  {
  }

  lemma HaiDotToanVen(dm: DanhMuc, db: Db)
    requires LaHaiDot(dm) && LaHaiKy(db)
    ensures ToanVen(dm, db)
  {
  }

  lemma KyMotDong(dm: DanhMuc, db: Db)
    requires LaHaiDot(dm) && LaHaiKy(db) && ToanVen(dm, db)
    ensures ResolveHocKyHienTai(dm, db, dm.sinhViens[0], 50) == Some(1)
    ensures KiemTraDangKy(dm, db, 0, 1, 50) == NgoaiDot
  {
    assert forall j: nat :: j < 2 && DotDuocXet(dm.dots[j], dm.sinhViens[0], 50, false) ==> MoiHon(dm.dots, j, 1);
    assert LaMoiNhat(dm.dots, dm.sinhViens[0], 50, false, 1);
    forall d | d in dm.dots && d.maHocKy == 1 ensures !d.choPhepDangKy {
    }
    ResolvedTermExact(dm, db, 0, 50, 1);
    SuggestedTermRefused(dm, db, 0, 50, 1, 1);
  }

  lemma KyKhongMo(dm: DanhMuc, db: Db)
    requires LaHaiDot(dm) && LaHaiKy(db) && ToanVen(dm, db)
    ensures KiemTraDangKy(dm, db, 0, 0, 50) == ThanhCong
  {
    assert dm.dots[0] in dm.dots && DotDangDienRa(dm.dots[0], dm.sinhViens[0], 0, 50);
    assert DangKyCuaLop(db, 0) == {};
    forall m: nat ensures CacZ(db, 0, m) == {} && DangKyMon(db, 0, 0, m) == {} {
    }
    assert TU_CHON != BAT_BUOC by { assert TU_CHON[0] != BAT_BUOC[0]; }
    assert !TrungLichSinhVien(db, 0, 0, db.lops[0].lichHocs, None);
  }

  /** The student can register in term 0, but the suggestions are for term 1, where every class is refused. */
  lemma NewestRoundNotOpen()
    ensures var dm, db := DanhMucHaiDot(), BangHaiKy();
            && ToanVen(dm, db) && ResolveHocKyHienTai(dm, db, dm.sinhViens[0], 50) == Some(1)
            && KiemTraDangKy(dm, db, 0, 1, 50) == NgoaiDot && KiemTraDangKy(dm, db, 0, 0, 50) == ThanhCong
  {
    var dm, db := DanhMucHaiDot(), BangHaiKy();
    HaiDotDung();
    HaiDotToanVen(dm, db);
    KyMotDong(dm, db);
    KyKhongMo(dm, db);
  }

  // ---------------------------------------------------------------- advised against, and accepted

  /** Required course A of curriculum term 2, failed in the summer term, has a class in a first term. */
  function DanhMucHe(): DanhMuc {
    DanhMuc(map[0 := MonHoc("A", BAT_BUOC, 3, None)],
            map[0 := HocKy("Hè", "Phụ", 2024, 2024, 0), 1 := HocKy("1", "Chính", 2024, 2024, 150)],
            map[0 := SinhVien(0, 2024, 0)],
            [], map[0 := [KhungMon(0, 2)]], {}, c => c)
  }

  function BangHe(): Db {
    Db(map[0 := LopA(0, 0), 1 := LopA(1, 1)], map[0 := DangKyLopHoc(0, 0)],
       map[0 := DiemHocPhan(Some(3.0), Some(3.0), Some(300))], map[0 := TichLuy(0, 0)], 2, 1)
  }

  ghost predicate LaDanhMucHe(dm: DanhMuc) {
    && (forall k: nat :: k in dm.monHocs <==> k == 0) && dm.monHocs[0] == MonHoc("A", BAT_BUOC, 3, None)
    && (forall k: nat :: k in dm.hocKys <==> k <= 1) && dm.hocKys[1] == HocKy("1", "Chính", 2024, 2024, 150)
    && (forall k: nat :: k in dm.sinhViens <==> k == 0) && dm.sinhViens[0] == SinhVien(0, 2024, 0)
    && 0 in dm.khung && dm.khung[0] == [KhungMon(0, 2)]
  }

  ghost predicate LaBangHe(db: Db) {
    && (forall k: nat :: k in db.lops <==> k <= 1) && db.lopKe == 2
    && db.lops[0] == LopA(0, 0) && db.lops[1] == LopA(1, 1)
    && (forall k: nat :: k in db.dangKys <==> k == 0) && db.dangKys[0] == DangKyLopHoc(0, 0) && db.dangKyKe == 1
    && (forall k: nat :: k in db.diems <==> k == 0) && db.diems[0].diemZ == Some(300)
    && (forall k: nat :: k in db.tichLuy <==> k == 0)
  }

  lemma HeDung()
    ensures LaDanhMucHe(DanhMucHe()) && LaBangHe(BangHe())
  {
  }

  lemma HeTruot(dm: DanhMuc, db: Db)
    requires LaDanhMucHe(dm) && LaBangHe(db)
    ensures KhungDung(dm, KhungCua(dm, dm.sinhViens[0])) && ToanVen(dm, db)
    ensures TruotTruocKy(dm, db, 0, 1, KhungMon(0, 2)) && CoLop(db, 1, 0)
  {
    assert DaCham(db, 0) && 300 in CacZ(db, 0, 0);
    assert forall z: nat :: z in CacZ(db, 0, 0) ==> z == 300;
    assert DangKyMon(db, 0, 1, 0) == {};
    assert 1 in db.lops && db.lops[1].maHocKy == 1;
    assert '2' !in "1";
  }

  /** The page says the course is not open to the student; every guard on the course lets it through. */
  lemma AdviceCanDiffer()
    ensures var dm, db := DanhMucHe(), BangHe();
            && ToanVen(dm, db) && KhungDung(dm, KhungCua(dm, dm.sinhViens[0]))
            && QuaCuaMon(dm, db, 0, 1, 0) && !BuildChuongTrinh(dm, db, 0, 1)[0].coTheDangKy
  {
    HeDung();
    HeTruot(DanhMucHe(), BangHe());
    HeKhac(DanhMucHe(), BangHe());
  }

  lemma HeKhac(dm: DanhMuc, db: Db)
    requires LaDanhMucHe(dm) && KhungDung(dm, KhungCua(dm, dm.sinhViens[0]))
    requires TruotTruocKy(dm, db, 0, 1, KhungMon(0, 2)) && CoLop(db, 1, 0)
    ensures QuaCuaMon(dm, db, 0, 1, 0) && !BuildChuongTrinh(dm, db, 0, 1)[0].coTheDangKy
  {
    AdviceExact(dm, db, 0, 1, 0);
  }
}
