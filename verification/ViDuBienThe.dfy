/** Two small problems: in one a later variant places more courses than the first, in the other fewer. */
module ViDuBienThe {
  import opened Math
  import opened LichHoc
  import opened Entities
  import opened XepLich
  import opened XepLichNganSach
  import opened XepLichToiUu
  import opened KyHieu
  import opened BienThe
  import opened ViDuXepLich

  // ---------------------------------------------------------------- evaluating the reference search

  /** A course none of whose classes fits is left out. */
  lemma GiaiBoQua(b: Bai, i: nat, d: BangChon)
    requires i < |b.thuTu| && forall r :: 0 <= r < |b.XepHang(i)| ==> !Hop(b.XepHang(i)[r].0, d)
    ensures var lyDo := if b.UngVien(i) == [] then KhongConLop else TrungGio;
            Giai(b, i, d) == ThemDau(Giai(b, i + 1, d), b.thuTu[i].tenMonHoc, lyDo)
  {
    TotNhatNone(b, i, d, |b.XepHang(i)|);
  }

  /** A course with a single class that fits gets it. */
  lemma GiaiMot(b: Bai, i: nat, d: BangChon, r: nat)
    requires i < |b.thuTu| && r < |b.XepHang(i)| && Hop(b.XepHang(i)[r].0, d) && b.UngVien(i) != []
    requires forall s :: 0 <= s < |b.XepHang(i)| && s != r ==> !Hop(b.XepHang(i)[s].0, d)
    ensures Giai(b, i, d) == Nhanh(b, i, d, r)
  {
    var k := |b.XepHang(i)|;
    TotNhatNone(b, i, d, k);
    var t := ChoiceAtCourse(b, i, d, k);
    assert t == r;
  }

  /** Of two classes that fit, the first is kept if its branch is as good. */
  lemma GiaiDau(b: Bai, i: nat, d: BangChon)
    requires i < |b.thuTu| && |b.XepHang(i)| == 2 && Hop(b.XepHang(i)[0].0, d) && b.UngVien(i) != []
    requires Hop(b.XepHang(i)[1].0, d) ==>
               Nhanh(b, i, d, 0).khongXepDuoc == [] || !TotHon(Nhanh(b, i, d, 1), Nhanh(b, i, d, 0))
    ensures Giai(b, i, d) == Nhanh(b, i, d, 0)
  {
    TotNhatBuoc(b, i, d, 0);
    TotNhatBuoc(b, i, d, 1);
  }

  // ---------------------------------------------------------------- more courses than the first

  /** Two classes of A, two of B, one each of C and D. */
  datatype SauLop = SauLop(a1: LopHoc, a2: LopHoc, b1: LopHoc, b2: LopHoc, c1: LopHoc, d1: LopHoc)

  ghost predicate Cung(a: LopHoc, b: LopHoc) { !TrungNhau(a.lichHocs, b.lichHocs) }

  /** Each class of B clashes with those of C and D and with one class of A; nothing else clashes. */
  ghost predicate BangTrung(s: SauLop) {
    && Cung(s.b1, s.a1) && !Cung(s.b2, s.a1) && !Cung(s.b1, s.a2) && Cung(s.b2, s.a2)
    && !Cung(s.c1, s.b1) && !Cung(s.c1, s.b2) && !Cung(s.d1, s.b1) && !Cung(s.d1, s.b2)
    && Cung(s.c1, s.a1) && Cung(s.c1, s.a2) && Cung(s.d1, s.a1) && Cung(s.d1, s.a2) && Cung(s.d1, s.c1)
    && MotBuoi(s.a1) && MotBuoi(s.a2) && MotBuoi(s.b1) && MotBuoi(s.b2) && MotBuoi(s.c1) && MotBuoi(s.d1)
    && s.a1.maLopHocKy == 0 && s.a2.maLopHocKy == 1 && s.b1.maLopHocKy == 2 && s.b2.maLopHocKy == 3
  }

  /** The problem, possibly with classes of A or B banned. */
  ghost predicate BonMon(h: Bai, s: SauLop) {
    && BangTrung(s) && |h.thuTu| == 4 && h.Ma(0) == 0 && h.Ma(1) == 1 && h.Ma(2) == 2 && h.Ma(3) == 3
    && h.yeuCau == KhongYeuCau()
    && h.thuTu[1].tenMonHoc == "B" && h.thuTu[2].tenMonHoc == "C" && h.thuTu[3].tenMonHoc == "D"
    && h.UngVien(2) == [s.c1] && h.UngVien(3) == [s.d1]
    && (h.UngVien(0) == [s.a1, s.a2] || h.UngVien(0) == [s.a2])
    && (h.UngVien(1) == [s.b1, s.b2] || h.UngVien(1) == [])
  }

  lemma XepBon(h: Bai, s: SauLop)
    requires BonMon(h, s)
    ensures forall i :: 0 <= i < 4 ==>
              |h.XepHang(i)| == |h.UngVien(i)| &&
              forall k :: 0 <= k < |h.UngVien(i)| ==> h.XepHang(i)[k] == (h.UngVien(i)[k], 0)
  {
    ThuTuNguyen(h, 0);
    ThuTuNguyen(h, 1);
    ThuTuNguyen(h, 2);
    ThuTuNguyen(h, 3);
  }

  /** Such a problem is far from the limit. */
  lemma TimLaGiai(h: Bai, s: SauLop)
    requires BonMon(h, s)
    ensures Tim(h, 0, map[], 0).kq == Giai(h, 0, map[])
  {
    var m3, m2, m1, m0 := NutToiDa(h, 3), NutToiDa(h, 2), NutToiDa(h, 1), NutToiDa(h, 0);
    assert |h.UngVien(3)| == 1 && |h.UngVien(2)| == 1 && |h.UngVien(1)| <= 2;
    assert NutToiDa(h, 4) == 0;
    assert m3 == 1 by { LapTich(1, 0); }
    assert m2 == 2 by { LapTich(1, 1); }
    assert m1 <= 5 by { LapTich(Max(1, |h.UngVien(1)|), 2); }
    assert |h.UngVien(0)| == 1 || |h.UngVien(0)| == 2;
    assert m0 == 1 + Lap(|h.UngVien(0)|, m1);
    LapTich(|h.UngVien(0)|, m1);
    assert m0 <= 11;
    NodesBounded(h, 0, map[], 0);
    WithinBudget(h, 0, map[], 0);
  }

  const THIEU_CD := [MonKhongXep("C", TrungGio), MonKhongXep("D", TrungGio)]

  lemma CoBThieuD(h: Bai, s: SauLop, d: BangChon)
    requires BonMon(h, s) && 1 in d && (d[1] == s.b1 || d[1] == s.b2)
    ensures Giai(h, 3, d) == KetQua(d, [MonKhongXep("D", TrungGio)], 0)
  {
    XepBon(h, s);
    GiaiBoQua(h, 3, d);
    assert Giai(h, 4, d) == KetQua(d, [], 0);
  }

  /** With a class of B neither C nor D fits. */
  lemma CoB(h: Bai, s: SauLop, d: BangChon)
    requires BonMon(h, s) && 1 in d && (d[1] == s.b1 || d[1] == s.b2)
    ensures Giai(h, 2, d) == KetQua(d, THIEU_CD, 0)
  {
    assert Giai(h, 2, d) == ThemDau(Giai(h, 3, d), "C", TrungGio) by {
      XepBon(h, s);
        GiaiBoQua(h, 2, d);
    }
    CoBThieuD(h, s, d);
    GhepCD(d);
  }

  lemma GhepCD(d: BangChon)
    ensures ThemDau(KetQua(d, [MonKhongXep("D", TrungGio)], 0), "C", TrungGio) == KetQua(d, THIEU_CD, 0)
  {
  }

  lemma MotTrongB(h: Bai, s: SauLop, d: BangChon, r: nat)
    requires BonMon(h, s) && h.UngVien(1) == [s.b1, s.b2] && r < 2
    requires (d == map[0 := s.a1] && r == 0) || (d == map[0 := s.a2] && r == 1)
    ensures |h.XepHang(1)| == 2 && h.XepHang(1)[r] == ([s.b1, s.b2][r], 0)
    ensures Hop(h.XepHang(1)[r].0, d) && !Hop(h.XepHang(1)[1 - r].0, d)
  {
    XepBon(h, s);
    assert 0 in d;
    assert h.XepHang(1)[0].0 == s.b1 && h.XepHang(1)[1].0 == s.b2;
  }

  /** Beside class a of A the class l of B that fits is taken, and C and D are left out. */
  lemma ChonB(h: Bai, s: SauLop, a: LopHoc, l: LopHoc)
    requires BonMon(h, s) && h.UngVien(1) == [s.b1, s.b2] && ((a == s.a1 && l == s.b1) || (a == s.a2 && l == s.b2))
    ensures Giai(h, 1, map[0 := a]) == KetQua(map[0 := a, 1 := l], THIEU_CD, 0)
  {
    var d: BangChon, r: nat := map[0 := a], if l == s.b1 then 0 else 1;
    MotTrongB(h, s, d, r);
    GiaiMot(h, 1, d, r);
    assert d[1 := l] == map[0 := a, 1 := l];
    CoB(h, s, d[1 := l]);
  }

  lemma LanDau(h: Bai, s: SauLop)
    requires BonMon(h, s) && h.UngVien(0) == [s.a1, s.a2] && h.UngVien(1) == [s.b1, s.b2]
    ensures Tim(h, 0, map[], 0).kq == KetQua(map[0 := s.a1, 1 := s.b1], THIEU_CD, 0)
  {
    var rong: BangChon := map[];
    XepBon(h, s);
    ChonB(h, s, s.a1, s.b1);
    ChonB(h, s, s.a2, s.b2);
    assert rong[0 := s.a1] == map[0 := s.a1] && rong[0 := s.a2] == map[0 := s.a2];
    GiaiDau(h, 0, rong);
    TimLaGiai(h, s);
  }

  lemma LanHai(h: Bai, s: SauLop)
    requires BonMon(h, s) && h.UngVien(0) == [s.a2] && h.UngVien(1) == [s.b1, s.b2]
    ensures Tim(h, 0, map[], 0).kq == KetQua(map[0 := s.a2, 1 := s.b2], THIEU_CD, 0)
  {
    var rong: BangChon := map[];
    XepBon(h, s);
    ChonB(h, s, s.a2, s.b2);
    assert rong[0 := s.a2] == map[0 := s.a2];
    GiaiMot(h, 0, rong, 0);
    TimLaGiai(h, s);
  }

  lemma KhongBThemD(h: Bai, s: SauLop, d: BangChon)
    requires BonMon(h, s) && (forall k :: k in d ==> !TrungNhau(s.d1.lichHocs, d[k].lichHocs))
    ensures Giai(h, 3, d) == KetQua(d[3 := s.d1], [], 0)
  {
    XepBon(h, s);
    GiaiMot(h, 3, d, 0);
    assert Giai(h, 4, d[3 := s.d1]) == KetQua(d[3 := s.d1], [], 0);
  }

  lemma KhongBThemC(h: Bai, s: SauLop, d: BangChon)
    requires BonMon(h, s) && (forall k :: k in d ==> !TrungNhau(s.c1.lichHocs, d[k].lichHocs))
    ensures Giai(h, 2, d) == CongDiem(Giai(h, 3, d[2 := s.c1]), 0)
  {
    XepBon(h, s);
    GiaiMot(h, 2, d, 0);
  }

  /** Without B, both C and D fit. */
  lemma KhongB(h: Bai, s: SauLop, a: LopHoc)
    requires BonMon(h, s) && h.UngVien(1) == [] && (a == s.a1 || a == s.a2)
    ensures Giai(h, 1, map[0 := a]) == KetQua(map[0 := a, 2 := s.c1, 3 := s.d1], [MonKhongXep("B", KhongConLop)], 0)
  {
    var d1, d2, d3 := map[0 := a], map[0 := a, 2 := s.c1], map[0 := a, 2 := s.c1, 3 := s.d1];
    assert d1[2 := s.c1] == d2 && d2[3 := s.d1] == d3;
    KhongBThemC(h, s, d1);
    KhongBThemD(h, s, d2);
    assert |h.XepHang(1)| == 0 by { XepBon(h, s); }
    GiaiBoQua(h, 1, d1);
  }

  lemma LanBa(h: Bai, s: SauLop)
    requires BonMon(h, s) && h.UngVien(0) == [s.a1, s.a2] && h.UngVien(1) == []
    ensures Tim(h, 0, map[], 0).kq ==
            KetQua(map[0 := s.a1, 2 := s.c1, 3 := s.d1], [MonKhongXep("B", KhongConLop)], 0)
  {
    var rong: BangChon := map[];
    XepBon(h, s);
    KhongB(h, s, s.a1);
    KhongB(h, s, s.a2);
    assert rong[0 := s.a1] == map[0 := s.a1] && rong[0 := s.a2] == map[0 := s.a2];
    GiaiDau(h, 0, rong);
    TimLaGiai(h, s);
  }

  /** Six such classes, all on one weekday. */
  function SauCuThe(): SauLop {
    SauLop(LopVd(0, 0, 2, 4, 4), LopVd(1, 0, 2, 1, 1), LopVd(2, 1, 2, 1, 3), LopVd(3, 1, 2, 2, 4),
           LopVd(4, 2, 2, 2, 2), LopVd(5, 3, 2, 3, 3))
  }

  lemma SauCuTheDung()
    ensures BangTrung(SauCuThe())
  {
    var s := SauCuThe();
    TrungMot(s.b1, s.a1); TrungMot(s.b2, s.a1); TrungMot(s.b1, s.a2); TrungMot(s.b2, s.a2);
    TrungMot(s.c1, s.b1); TrungMot(s.c1, s.b2); TrungMot(s.d1, s.b1); TrungMot(s.d1, s.b2);
    TrungMot(s.c1, s.a1); TrungMot(s.c1, s.a2); TrungMot(s.d1, s.a1); TrungMot(s.d1, s.a2);
    TrungMot(s.d1, s.c1);
  }

  /** The problem as it is posed. */
  function BaiCua(s: SauLop): Bai {
    Bai([MonVd(0, "A"), MonVd(1, "B"), MonVd(2, "C"), MonVd(3, "D")],
        map[0 := [s.a1, s.a2], 1 := [s.b1, s.b2], 2 := [s.c1], 3 := [s.d1]], KhongYeuCau())
  }

  lemma LocVd(s: SauLop)
    requires BangTrung(s)
    ensures LocLop([s.a1, s.a2], {0}) == [s.a2] && LocLop([s.b1, s.b2], {2, 3}) == []
  {
    assert [s.a1, s.a2][1..] == [s.a2] && [s.a2][1..] == [];
    assert [s.b1, s.b2][1..] == [s.b2] && [s.b2][1..] == [];
    assert LocLop([], {0}) == [] && LocLop([], {2, 3}) == [];
    assert LocLop([s.a2], {0}) == [s.a2] && LocLop([s.b2], {2, 3}) == [];
  }

  lemma HanCheMot(b: Bai, m: nat, bo: set<nat>, j: nat)
    requires j < |b.thuTu|
    ensures var h := HanChe(b, map[m := bo]);
            && h.thuTu == b.thuTu && h.yeuCau == b.yeuCau
            && h.UngVien(j) == if b.Ma(j) == m then LocLop(b.UngVien(j), bo) else b.UngVien(j)
  {
  }

  lemma HanCheBon(b: Bai, s: SauLop, m: nat, bo: set<nat>)
    requires BonMon(b, s) && 0 <= m < 2
    ensures var h := HanChe(b, map[m := bo]);
            && h.thuTu == b.thuTu && h.yeuCau == b.yeuCau
            && h.UngVien(2) == b.UngVien(2) && h.UngVien(3) == b.UngVien(3)
            && h.UngVien(m) == LocLop(b.UngVien(m), bo) && h.UngVien(1 - m) == b.UngVien(1 - m)
  {
    HanCheMot(b, m, bo, 0);
    HanCheMot(b, m, bo, 1);
    HanCheMot(b, m, bo, 2);
    HanCheMot(b, m, bo, 3);
  }

  ghost predicate DuLop(b: Bai, s: SauLop) {
    BonMon(b, s) && b.UngVien(0) == [s.a1, s.a2] && b.UngVien(1) == [s.b1, s.b2]
  }

  lemma BaiCuaDung(s: SauLop)
    requires BangTrung(s)
    ensures DuLop(BaiCua(s), s)
  {
  }

  lemma CamA1(b: Bai, s: SauLop)
    requires DuLop(b, s)
    ensures var h := HanChe(b, map[0 := {0}]);
            BonMon(h, s) && h.UngVien(0) == [s.a2] && h.UngVien(1) == [s.b1, s.b2]
  {
    LocVd(s);
    HanCheBon(b, s, 0, {0});
  }

  lemma CamB(b: Bai, s: SauLop)
    requires DuLop(b, s)
    ensures var h := HanChe(b, map[1 := {2, 3}]);
            BonMon(h, s) && h.UngVien(0) == [s.a1, s.a2] && h.UngVien(1) == []
  {
    LocVd(s);
    HanCheBon(b, s, 1, {2, 3});
  }

  lemma ChayHai(b: Bai, s: SauLop)
    requires DuLop(b, s)
    ensures ChayLai(b, map[], map[0 := {0}]) == K1(s)
  {
    CamA1(b, s);
    LanHai(HanChe(b, map[0 := {0}]), s);
  }

  lemma ChayBa(b: Bai, s: SauLop)
    requires DuLop(b, s)
    ensures ChayLai(b, map[], map[1 := {2, 3}]) == K2(s)
  {
    CamB(b, s);
    LanBa(HanChe(b, map[1 := {2, 3}]), s);
  }

  lemma ChayDau(b: Bai, s: SauLop)
    requires DuLop(b, s)
    ensures ChayLai(b, map[], map[]) == K0(s)
  {
    HanCheRong(b);
    LanDau(b, s);
  }

  lemma KhacLop(a: KetQua, c: KetQua, k: nat)
    requires k in a.chon && (k in c.chon ==> a.chon[k].maLopHocKy != c.chon[k].maLopHocKy)
    ensures KyHieuToHop(a.chon) != KyHieuToHop(c.chon)
  {
    SignatureInjective(a.chon, c.chon);
    assert k in LopCuaMon(a.chon);
  }

  lemma MotMon(b: Bai, i: nat)
    requires i < |b.thuTu|
    ensures NhieuLuaChon(b, b.thuTu[i..]) ==
            (if |b.UngVien(i)| > 1 then [b.thuTu[i]] else []) + NhieuLuaChon(b, b.thuTu[i + 1..])
  {
    assert b.thuTu[i..][0] == b.thuTu[i] && b.thuTu[i..][1..] == b.thuTu[i + 1..];
  }

  lemma HaiMonNhieuLop(b: Bai, s: SauLop)
    requires DuLop(b, s)
    ensures NhieuLuaChon(b, b.thuTu) == [b.thuTu[0], b.thuTu[1]]
  {
    MotMon(b, 0);
    MotMon(b, 1);
    MotMon(b, 2);
    MotMon(b, 3);
    assert b.thuTu[0..] == b.thuTu && b.thuTu[4..] == [];
  }

  function K0(s: SauLop): KetQua { KetQua(map[0 := s.a1, 1 := s.b1], THIEU_CD, 0) }
  function K1(s: SauLop): KetQua { KetQua(map[0 := s.a2, 1 := s.b2], THIEU_CD, 0) }
  function K2(s: SauLop): KetQua { KetQua(map[0 := s.a1, 2 := s.c1, 3 := s.d1], [MonKhongXep("B", KhongConLop)], 0) }

  lemma VongDau(b: Bai, s: SauLop)
    requires DuLop(b, s)
    ensures TimNhieu(b, map[], 5) == CacBienThe(b, map[], 5, [b.thuTu[0], b.thuTu[1]], [K0(s)])
  {
    HaiMonNhieuLop(b, s);
    ChayDau(b, s);
    assert [] + [K0(s)] == [K0(s)];
  }

  lemma MoiMot(ds: seq<KetQua>, kq: KetQua, k: nat)
    requires k in kq.chon
    requires forall r :: r in ds ==> k in r.chon ==> r.chon[k].maLopHocKy != kq.chon[k].maLopHocKy
    ensures !DaCo(ds, kq)
  {
    forall r | r in ds ensures KyHieuToHop(r.chon) != KyHieuToHop(kq.chon) { KhacLop(kq, r, k); }
  }

  lemma MoiA(s: SauLop)
    requires BangTrung(s)
    ensures !DaCo([K0(s)], K1(s))
  {
    assert K0(s).chon[0] == s.a1 && K1(s).chon[0] == s.a2;
    MoiMot([K0(s)], K1(s), 0);
  }

  lemma MoiB(s: SauLop)
    ensures !DaCo([K0(s), K1(s)], K2(s))
  {
    var x, y, z := K0(s), K1(s), K2(s);
    assert 2 !in x.chon && 2 !in y.chon && 2 in z.chon;
    MoiMot([x, y], z, 2);
  }

  lemma NoiHaiBa(k0: KetQua, k1: KetQua, k2: KetQua)
    ensures [k0] + [k1] == [k0, k1] && [k0, k1] + [k2] == [k0, k1, k2]
  {
  }

  lemma BoDau<T>(x: T, y: T)
    ensures [x, y][1..] == [y] && [y][1..] == []
  {
  }

  lemma VongA(b: Bai, s: SauLop)
    requires DuLop(b, s)
    ensures CacBienThe(b, map[], 5, [b.thuTu[0], b.thuTu[1]], [K0(s)]) ==
            CacBienThe(b, map[], 5, [b.thuTu[1]], [K0(s), K1(s)])
  {
    ChayHai(b, s);
    DaDungHai(s, K0(s), K1(s));
    MoiA(s);
    NoiHaiBa(K0(s), K1(s), K2(s));
    BoDau(b.thuTu[0], b.thuTu[1]);
    assert b.thuTu[0].maMonHoc == b.Ma(0);
    VongMoi(b, map[], 5, [b.thuTu[0], b.thuTu[1]], [K0(s)], {0}, K1(s), [K0(s), K1(s)]);
  }

  lemma VongB(b: Bai, s: SauLop)
    requires DuLop(b, s)
    ensures CacBienThe(b, map[], 5, [b.thuTu[1]], [K0(s), K1(s)]) == [K0(s), K1(s), K2(s)]
  {
    ChayBa(b, s);
    DaDungHai(s, K0(s), K1(s));
    MoiB(s);
    NoiHaiBa(K0(s), K1(s), K2(s));
    BoDau(b.thuTu[0], b.thuTu[1]);
    assert b.thuTu[1].maMonHoc == b.Ma(1);
    VongMoi(b, map[], 5, [b.thuTu[1]], [K0(s), K1(s)], {2, 3}, K2(s), [K0(s), K1(s), K2(s)]);
  }

  lemma DaDungHai(s: SauLop, k0: KetQua, k1: KetQua)
    requires BangTrung(s) && k0.chon == map[0 := s.a1, 1 := s.b1] && k1.chon == map[0 := s.a2, 1 := s.b2]
    ensures DaDung([k0], 0) == {0} && DaDung([k0, k1], 1) == {2, 3}
  {
    assert k0 in [k0] && k0 in [k0, k1] && k1 in [k0, k1];
  }

  lemma LastPlacesMore(s: SauLop)
    requires BangTrung(s)
    ensures TimNhieu(BaiCua(s), map[], 5) == [K0(s), K1(s), K2(s)]
  {
    var b := BaiCua(s);
    BaiCuaDung(s);
    VongDau(b, s);
    VongA(b, s);
    VongB(b, s);
  }

  /** Of the three variants of this problem the last places three courses, the first two only two. */
  lemma LaterVariantCanPlaceMore()
    ensures var ds := TimNhieu(BaiCua(SauCuThe()), map[], 5);
            |ds| == 3 && |ds[0].khongXepDuoc| == 2 && |ds[1].khongXepDuoc| == 2 && |ds[2].khongXepDuoc| == 1
  {
    SauCuTheDung();
    LastPlacesMore(SauCuThe());
  }

  /** It says that B has no class with a free seat; two are on offer. */
  lemma LaterReasonNoClass()
    ensures var b := BaiCua(SauCuThe());
            var ds := TimNhieu(b, map[], 5);
            |ds| == 3 && ds[2].khongXepDuoc == [MonKhongXep("B", KhongConLop)] && |b.UngVien(1)| == 2
  {
    SauCuTheDung();
    LastPlacesMore(SauCuThe());
  }

  // ---------------------------------------------------------------- fewer courses than the first

  /** Course A has two classes, of which only the first goes with B's single class. */
  ghost predicate HaiMon(h: Bai, a1: LopHoc, a2: LopHoc, b1: LopHoc) {
    && |h.thuTu| == 2 && h.Ma(0) == 0 && h.Ma(1) == 1 && h.thuTu[1].tenMonHoc == "B" && h.yeuCau == KhongYeuCau()
    && (h.UngVien(0) == [a1, a2] || h.UngVien(0) == [a2]) && h.UngVien(1) == [b1]
    && MotBuoi(a1) && MotBuoi(a2) && MotBuoi(b1) && Cung(b1, a1) && !Cung(b1, a2)
    && a1.maLopHocKy == 0 && a2.maLopHocKy == 1
  }

  lemma TimLaGiaiHai(h: Bai, a1: LopHoc, a2: LopHoc, b1: LopHoc)
    requires HaiMon(h, a1, a2, b1)
    ensures Tim(h, 0, map[], 0).kq == Giai(h, 0, map[])
  {
    assert NutToiDa(h, 2) == 0;
    assert |h.UngVien(0)| <= 2 && |h.UngVien(1)| == 1;
    assert NutToiDa(h, 1) == 1 by { LapTich(1, 0); }
    assert NutToiDa(h, 0) <= 3 by { LapTich(Max(1, |h.UngVien(0)|), 1); }
    NodesBounded(h, 0, map[], 0);
    WithinBudget(h, 0, map[], 0);
  }

  lemma HaiMonDau(h: Bai, a1: LopHoc, a2: LopHoc, b1: LopHoc)
    requires HaiMon(h, a1, a2, b1) && h.UngVien(0) == [a1, a2]
    ensures Tim(h, 0, map[], 0).kq == KetQua(map[0 := a1, 1 := b1], [], 0)
  {
    var rong: BangChon := map[];
    var d1, d2 := map[0 := a1], map[0 := a1, 1 := b1];
    ThuTuNguyen(h, 0);
    ThuTuNguyen(h, 1);
    assert rong[0 := a1] == d1 && d1[1 := b1] == d2 && Hop(b1, d1);
    assert Giai(h, 2, d2) == KetQua(d2, [], 0);
    GiaiMot(h, 1, d1, 0);
    GiaiDau(h, 0, rong);
    TimLaGiaiHai(h, a1, a2, b1);
  }

  lemma HaiMonSau(h: Bai, a1: LopHoc, a2: LopHoc, b1: LopHoc)
    requires HaiMon(h, a1, a2, b1) && h.UngVien(0) == [a2]
    ensures Tim(h, 0, map[], 0).kq == KetQua(map[0 := a2], [MonKhongXep("B", TrungGio)], 0)
  {
    var rong: BangChon := map[];
    var d1 := map[0 := a2];
    ThuTuNguyen(h, 0);
    ThuTuNguyen(h, 1);
    assert rong[0 := a2] == d1 && 0 in d1 && !Hop(b1, d1);
    assert Giai(h, 2, d1) == KetQua(d1, [], 0);
    GiaiBoQua(h, 1, d1);
    GiaiMot(h, 0, rong, 0);
    TimLaGiaiHai(h, a1, a2, b1);
  }

  lemma MotLopCu(k0: KetQua, k1: KetQua, a1: LopHoc, a2: LopHoc, b1: LopHoc)
    requires k0.chon == map[0 := a1, 1 := b1] && k1.chon == map[0 := a2]
    requires a1.maLopHocKy == 0 && a2.maLopHocKy == 1
    ensures DaDung([k0], 0) == {0} && !DaCo([k0], k1)
  {
    var ds := [k0];
    assert 0 in k0.chon && k0.chon[0] == a1 && 0 in k1.chon && k1.chon[0] == a2;
    assert k0 in ds && forall r :: r in ds ==> r == k0;
    MoiMot(ds, k1, 0);
  }

  lemma HaiMonMot(b: Bai, a1: LopHoc, a2: LopHoc, b1: LopHoc)
    requires HaiMon(b, a1, a2, b1) && b.UngVien(0) == [a1, a2]
    ensures NhieuLuaChon(b, b.thuTu) == [b.thuTu[0]]
  {
    MotMon(b, 0);
    MotMon(b, 1);
    assert b.thuTu[0..] == b.thuTu && b.thuTu[2..] == [];
  }

  lemma HaiMonVong(b: Bai, a1: LopHoc, a2: LopHoc, b1: LopHoc, k0: KetQua, k1: KetQua)
    requires HaiMon(b, a1, a2, b1) && b.UngVien(0) == [a1, a2]
    requires k0.chon == map[0 := a1, 1 := b1] && k1.chon == map[0 := a2]
    requires ChayLai(b, map[], map[0 := {0}]) == k1
    ensures CacBienThe(b, map[], 5, [b.thuTu[0]], [k0]) == [k0, k1]
  {
    var t := b.thuTu[0];
    MotLopCu(k0, k1, a1, a2, b1);
    NoiHaiBa(k0, k1, k1);
    BoDau(t, t);
    assert t.maMonHoc == b.Ma(0);
    VongMoi(b, map[], 5, [t], [k0], {0}, k1, [k0, k1]);
  }

  lemma HaiMonBatDau(b: Bai, a1: LopHoc, a2: LopHoc, b1: LopHoc, k0: KetQua)
    requires HaiMon(b, a1, a2, b1) && b.UngVien(0) == [a1, a2] && k0 == KetQua(map[0 := a1, 1 := b1], [], 0)
    ensures TimNhieu(b, map[], 5) == CacBienThe(b, map[], 5, [b.thuTu[0]], [k0])
  {
    HaiMonMot(b, a1, a2, b1);
    HanCheRong(b);
    HaiMonDau(b, a1, a2, b1);
    assert [] + [k0] == [k0];
  }

  lemma HaiMonCam(b: Bai, a1: LopHoc, a2: LopHoc, b1: LopHoc)
    requires HaiMon(b, a1, a2, b1) && b.UngVien(0) == [a1, a2]
    ensures ChayLai(b, map[], map[0 := {0}]) == KetQua(map[0 := a2], [MonKhongXep("B", TrungGio)], 0)
  {
    CamLopDau(b, a1, a2, b1);
    HaiMonSau(HanChe(b, map[0 := {0}]), a1, a2, b1);
  }

  lemma HaiVariants(b: Bai, a1: LopHoc, a2: LopHoc, b1: LopHoc, k0: KetQua, k1: KetQua)
    requires HaiMon(b, a1, a2, b1) && b.UngVien(0) == [a1, a2]
    requires k0 == KetQua(map[0 := a1, 1 := b1], [], 0)
    requires k1 == KetQua(map[0 := a2], [MonKhongXep("B", TrungGio)], 0)
    ensures TimNhieu(b, map[], 5) == [k0, k1]
  {
    HaiMonBatDau(b, a1, a2, b1, k0);
    HaiMonCam(b, a1, a2, b1);
    HaiMonVong(b, a1, a2, b1, k0, k1);
  }

  lemma CamLopDau(b: Bai, a1: LopHoc, a2: LopHoc, b1: LopHoc)
    requires HaiMon(b, a1, a2, b1) && b.UngVien(0) == [a1, a2]
    ensures var h := HanChe(b, map[0 := {0}]); HaiMon(h, a1, a2, b1) && h.UngVien(0) == [a2]
  {
    assert [a1, a2][1..] == [a2] && [a2][1..] == [];
    assert LocLop([], {0}) == [] && LocLop([a2], {0}) == [a2];
    HanCheMot(b, 0, {0}, 0);
    HanCheMot(b, 0, {0}, 1);
  }

  function HaiMonCuThe(): Bai {
    Bai([MonVd(0, "A"), MonVd(1, "B")],
        map[0 := [LopVd(0, 0, 2, 1, 1), LopVd(1, 0, 2, 2, 2)], 1 := [LopVd(2, 1, 2, 2, 2)]], KhongYeuCau())
  }

  /** The first of the two variants of this problem places both courses, the second only one. */
  lemma LaterVariantCanPlaceFewer()
    ensures var ds := TimNhieu(HaiMonCuThe(), map[], 5);
            |ds| == 2 && |ds[0].khongXepDuoc| == 0 && |ds[1].khongXepDuoc| == 1
  {
    var a1, a2, b1 := LopVd(0, 0, 2, 1, 1), LopVd(1, 0, 2, 2, 2), LopVd(2, 1, 2, 2, 2);
    TrungMot(b1, a1);
    TrungMot(b1, a2);
    HaiVariants(HaiMonCuThe(), a1, a2, b1, KetQua(map[0 := a1, 1 := b1], [], 0),
                KetQua(map[0 := a2], [MonKhongXep("B", TrungGio)], 0));
  }
}
