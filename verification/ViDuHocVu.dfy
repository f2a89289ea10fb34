/** Concrete histories: one whose training row carries another GPA than the cached rule gives, and one with
    two terms that start on one day. */
module ViDuHocVu {
  import opened Collections
  import opened TichLuyDiem
  import opened HocVuRisk
  import opened HocVuRiskNghia
  import opened HocVuRiskHang
  import opened HocVuRiskKy
  import opened ViDuTichLuy

  /** Course 0, of three credits, at 5.00 in term 0 and 8.00 in term 1; another course in term 2. */
  function BaKy(): seq<LuotHoc> {
    [LuotHoc(0, 0, 3, false, 0, 0, 500), LuotHoc(0, 0, 3, false, 1, 100, 800), LuotHoc(0, 1, 2, false, 2, 200, 700)]
  }

  lemma MotKyMotMon(a: LuotHoc, ls: seq<LuotHoc>, hk: nat)
    requires CuaKy(ls, hk) == [a] && a.diemZ >= DIEM_DAT
    ensures TinChiDatKy(ls, hk) == a.soTinChi && DiemDatKy(ls, hk) == Thang4(a.diemZ) * a.soTinChi
    ensures DongKy(ls, hk) == [Dong(a.maMonHoc, a.soTinChi, a.diemZ)]
  {
    var d := Dong(a.maMonHoc, a.soTinChi, a.diemZ);
    var rows := DongKy(ls, hk);
    assert [a][1..] == [];
    assert rows == [d] + Dongs([a][1..]);
    assert rows == [d];
    assert rows[1..] == [];
    forall m: nat ensures m in TinChiDat(rows) <==> m == d.maMonHoc { BangNghia(rows, m); }
    BangNghia(rows, d.maMonHoc);
    TotalOne(TinChiDat(rows), d.maMonHoc);
    TotalOne(DiemDat(rows), d.maMonHoc);
    TongHaiDs(rows);
  }

  lemma BaXep(x: (nat, int), y: (nat, int), z: (nat, int))
    requires x.1 >= y.1 >= z.1
    ensures StableDescending([x, y, z]) == [x, y, z]
  {
    var rong: seq<(nat, int)> := [];
    assert [x, y, z][1..] == [y, z] && [y, z][1..] == [z] && [z][1..] == rong;
    assert StableDescending(rong) == rong;
    assert StableDescending([z]) == [z];
    assert StableDescending([y, z]) == [y, z];
  }

  lemma CuaKyBa(ls: seq<LuotHoc>, a: LuotHoc, b: LuotHoc, c: LuotHoc)
    requires ls == [a, b, c] && a.maHocKy == 0 && b.maHocKy == 1 && c.maHocKy == 2
    ensures CuaKy(ls, 0) == [a] && CuaKy(ls, 1) == [b] && CuaKy(ls, 2) == [c]
  {
    assert ls[1..] == [b, c] && [b, c][1..] == [c] && [c][1..] == [];
    assert forall hk: nat :: CuaKy([c], hk) == if hk == 2 then [c] else [];
    assert forall hk: nat :: CuaKy([b, c], hk) == (if hk == 1 then [b] else []) + if hk == 2 then [c] else [];
  }

  lemma CapKyBa(ls: seq<LuotHoc>, a: LuotHoc, b: LuotHoc, c: LuotHoc)
    requires ls == [a, b, c] && a.maHocKy == 0 && b.maHocKy == 1 && c.maHocKy == 2
    ensures CapKy(ls) == [(0, -a.ngayBatDauKy), (1, -b.ngayBatDauKy), (2, -c.ngayBatDauKy)]
  {
    var x: (nat, int), y: (nat, int) := (0, -a.ngayBatDauKy), (1, -b.ngayBatDauKy);
    assert ls[..2] == [a, b] && [a, b][..1] == [a] && [a][..0] == [];
    assert CapKy([a]) == [x];
    assert CapKy([a, b]) == [x, y];
  }

  lemma CacKyBa(ls: seq<LuotHoc>, a: LuotHoc, b: LuotHoc, c: LuotHoc)
    requires ls == [a, b, c] && a.maHocKy == 0 && b.maHocKy == 1 && c.maHocKy == 2
    requires a.ngayBatDauKy < b.ngayBatDauKy < c.ngayBatDauKy
    ensures CacKy(ls) == [0, 1, 2]
    ensures CuaKy(ls, 0) == [a] && CuaKy(ls, 1) == [b] && CuaKy(ls, 2) == [c]
  {
    var x: (nat, int), y: (nat, int), z: (nat, int) :=
      (0, -a.ngayBatDauKy), (1, -b.ngayBatDauKy), (2, -c.ngayBatDauKy);
    CapKyBa(ls, a, b, c);
    BaXep(x, y, z);
    MaKyNghia([x, y, z]);
    var ks := CacKy(ls);
    assert |ks| == 3 && ks[0] == 0 && ks[1] == 1 && ks[2] == 2;
    CuaKyBa(ls, a, b, c);
  }

  /** What one more term with a single passed attempt adds. */
  lemma SauMotKy(ls: seq<LuotHoc>, kys: seq<nat>, n: nat, a: LuotHoc)
    requires n < |kys| && CuaKy(ls, kys[n]) == [a] && a.diemZ >= DIEM_DAT
    ensures TinChiSau(ls, kys, n + 1) == TinChiSau(ls, kys, n) + a.soTinChi
    ensures DiemSau(ls, kys, n + 1) == DiemSau(ls, kys, n) + Thang4(a.diemZ) * a.soTinChi
  {
    MotKyMotMon(a, ls, kys[n]);
  }

  lemma GpaSauHaiKy(ls: seq<LuotHoc>, kys: seq<nat>)
    requires ls == BaKy() && kys == [0, 1, 2] && CuaKy(ls, 0) == [ls[0]] && CuaKy(ls, 1) == [ls[1]]
    ensures GpaTruoc(ls, kys, 2) == 2.5
  {
    SauMotKy(ls, kys, 0, ls[0]);
    SauMotKy(ls, kys, 1, ls[1]);
    assert TinChiSau(ls, kys, 2) == 6 && DiemSau(ls, kys, 2) == 150;
  }

  lemma DongSauHaiKy(ls: seq<LuotHoc>, kys: seq<nat>, a: LuotHoc, b: LuotHoc)
    requires |kys| >= 2 && CuaKy(ls, kys[0]) == [a] && CuaKy(ls, kys[1]) == [b]
    requires a.diemZ >= DIEM_DAT && b.diemZ >= DIEM_DAT
    ensures DongTrong(ls, kys, 2) ==
            [Dong(a.maMonHoc, a.soTinChi, a.diemZ), Dong(b.maMonHoc, b.soTinChi, b.diemZ)]
  {
    MotKyMotMon(a, ls, kys[0]);
    MotKyMotMon(b, ls, kys[1]);
    assert DongTrong(ls, kys, 1) == [] + DongKy(ls, kys[0]);
  }

  lemma TinhSauHaiKy(ls: seq<LuotHoc>, kys: seq<nat>)
    requires ls == BaKy() && kys == [0, 1, 2] && CuaKy(ls, 0) == [ls[0]] && CuaKy(ls, 1) == [ls[1]]
    ensures TinhTichLuy(DongTrong(ls, kys, 2)) == TichLuy(3, 350)
  {
    DongSauHaiKy(ls, kys, ls[0], ls[1]);
    HaiDong(500, 800);
    MotDong(800);
  }

  lemma HangSvDai(ls: seq<LuotHoc>, kys: seq<nat>, k: nat)
    requires k < |kys|
    ensures |HangSv(ls, ls, kys, k + 1)| == |HangSv(ls, ls, kys, k)| + |CuaKy(ls, kys[k])|
  {
    HangSvBuoc(ls, ls, kys, k);
    HangKyGpa(ls, ls, kys, k, GpaTruoc(ls, kys, k), |CuaKy(ls, kys[k])|);
  }

  lemma BaHang(ls: seq<LuotHoc>, kys: seq<nat>)
    requires kys == CacKy(ls) && kys == [0, 1, 2]
    requires |CuaKy(ls, 0)| == 1 && |CuaKy(ls, 1)| == 1 && |CuaKy(ls, 2)| == 1
    ensures |HangSv(ls, ls, kys, 3)| == 3 && HangSv(ls, ls, kys, 3)[2].gpaTruocKy == GpaTruoc(ls, kys, 2)
  {
    HangSvDai(ls, kys, 0);
    HangSvDai(ls, kys, 1);
    HangSvDai(ls, kys, 2);
    HangCuaKyGpa(ls, ls, 2, 2);
  }

  /** The history above: its third row carries the prior GPA 2.5, the mean over both passes, while the
      cached rule gives 3.50 for the terms before. */
  ghost predicate GpaKhac(ls: seq<LuotHoc>) {
    && CacKy(ls) == [0, 1, 2] && |HangSv(ls, ls, CacKy(ls), 3)| == 3
    && HangSv(ls, ls, CacKy(ls), 3)[2].gpaTruocKy == 2.5
    && TinhTichLuy(DongTrong(ls, CacKy(ls), 2)) == TichLuy(3, 350)
  }

  lemma RowGpaCanDiffer()
    ensures GpaKhac(BaKy())
  {
    var ls := BaKy();
    CacKyBa(ls, ls[0], ls[1], ls[2]);
    GpaSauHaiKy(ls, CacKy(ls));
    TinhSauHaiKy(ls, CacKy(ls));
    BaHang(ls, CacKy(ls));
  }

  // ---------------------------------------------------------------- two terms on one day

  /** Course 0, of three credits, at 5.00 in term 0, and course 1 in term 1, which starts on the same day. */
  function CungNgay(): seq<LuotHoc> {
    [LuotHoc(0, 0, 3, false, 0, 0, 500), LuotHoc(0, 1, 2, false, 1, 0, 700)]
  }

  lemma CacKyHai(ls: seq<LuotHoc>, a: LuotHoc, b: LuotHoc)
    requires ls == [a, b] && a.maHocKy == 0 && b.maHocKy == 1 && a.ngayBatDauKy == 0 && b.ngayBatDauKy == 0
    ensures CacKy(ls) == [0, 1] && CuaKy(ls, 0) == [a] && CuaKy(ls, 1) == [b]
  {
    var x: (nat, int), y: (nat, int) := (0, 0), (1, 0);
    var rong: seq<(nat, int)> := [];
    assert ls[..1] == [a] && [a][..0] == [];
    assert CapKy([a]) == [x];
    assert CapKy(ls) == [x, y];
    assert [x, y][1..] == [y] && [y][1..] == rong;
    assert StableDescending(rong) == rong;
    assert StableDescending([y]) == [y];
    assert StableDescending([x, y]) == [x, y];
    MaKyNghia([x, y]);
    var ks := CacKy(ls);
    assert |ks| == 2 && ks[0] == 0 && ks[1] == 1;
    assert ls[1..] == [b] && [b][1..] == [];
    assert forall hk: nat :: CuaKy([b], hk) == if hk == 1 then [b] else [];
  }

  lemma GpaSauMotKy(ls: seq<LuotHoc>, kys: seq<nat>)
    requires ls == CungNgay() && kys == [0, 1] && CuaKy(ls, 0) == [ls[0]]
    ensures GpaTruoc(ls, kys, 0) == 0.0 && GpaTruoc(ls, kys, 1) == 1.5
  {
    SauMotKy(ls, kys, 0, ls[0]);
    assert TinChiSau(ls, kys, 1) == 3 && DiemSau(ls, kys, 1) == 45;
  }

  lemma HaiHang(ls: seq<LuotHoc>, kys: seq<nat>)
    requires kys == CacKy(ls) && kys == [0, 1] && |CuaKy(ls, 0)| == 1 && |CuaKy(ls, 1)| == 1
    ensures |HangSv(ls, ls, kys, 2)| == 2
    ensures HangSv(ls, ls, kys, 2)[0].gpaTruocKy == GpaTruoc(ls, kys, 0)
    ensures HangSv(ls, ls, kys, 2)[1].gpaTruocKy == GpaTruoc(ls, kys, 1)
  {
    HangSvDai(ls, kys, 0);
    HangSvDai(ls, kys, 1);
    HangCuaKyGpa(ls, ls, 0, 0);
    HangCuaKyGpa(ls, ls, 1, 1);
  }

  ghost predicate HaiGpa(ls: seq<LuotHoc>) {
    && CacKy(ls) == [0, 1] && |HangSv(ls, ls, CacKy(ls), 2)| == 2
    && HangSv(ls, ls, CacKy(ls), 2)[0].gpaTruocKy == 0.0 && HangSv(ls, ls, CacKy(ls), 2)[1].gpaTruocKy == 1.5
  }

  /** No term starts earlier, yet the second row carries the pass of the first. */
  lemma SameDayRowsDiffer()
    ensures HaiGpa(CungNgay())
  {
    var ls := CungNgay();
    CacKyHai(ls, ls[0], ls[1]);
    GpaSauMotKy(ls, CacKy(ls));
    HaiHang(ls, CacKy(ls));
  }
}
