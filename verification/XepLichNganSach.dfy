/** The node budget: how much work a run can do, and what its result means when the budget was
    not used up. */
module XepLichNganSach {
  import opened Math
  import opened Wrappers
  import opened Entities
  import opened XepLich
  import opened XepLichAnToan

  // ---------------------------------------------------------------- work

  ghost predicate ToiDa(b: Bai, w: nat) {
    w >= 1 && forall j :: 0 <= j < |b.thuTu| ==> |b.UngVien(j)| <= w
  }

  /** d times w, kept away from non-linear arithmetic. */
  function Lap(d: int, w: nat): nat {
    if d <= 0 then 0 else w + Lap(d - 1, w)
  }

  lemma {:induction false} LapCong(d: nat, e: nat, w: nat)
    ensures Lap(d + e, w) == Lap(d, w) + Lap(e, w)
  {
    if d > 0 { LapCong(d - 1, e, w); }
  }

  lemma LapThem(d: nat, w: nat)
    requires d > 0
    ensures Lap(d, w) == w + Lap(d - 1, w)
  {
  }

  lemma {:induction false} LapTich(d: nat, w: nat)
    ensures Lap(d, w) == d * w
  {
    if d > 0 {
      LapTich(d - 1, w);
      assert (d - 1) * w == d * w - w;
    }
  }

  /** The counter only grows and never passes the limit by more than one; each counted node makes at
      most w further calls, w being the longest list of classes, calls past the limit included. */
  lemma {:induction false} TimDem(b: Bai, i: nat, daChon: BangChon, n: int, w: nat)
    requires i <= |b.thuTu| && ToiDa(b, w)
    ensures var r := Tim(b, i, daChon, n);
            r.soLanGoi >= 1 && DemDung(n, r.soNut, r.soLanGoi, 1, w)
    decreases |b.thuTu| - i, 1, 0
  {
    var r := Tim(b, i, daChon, n);
    if i == |b.thuTu| || n > GIOI_HAN_NUT {
      DemKhong(n, w);
    } else if b.UngVien(i) == [] {
      var sub := Tim(b, i + 1, daChon, n + 1);
      TimDem(b, i + 1, daChon, n + 1, w);
      assert r.soNut == sub.soNut && r.soLanGoi == 1 + sub.soLanGoi;
      DemMotNut(n, sub.soNut, sub.soLanGoi, 1, w);
    } else {
      TimDemThu(b, i, daChon, n, w);
    }
  }

  lemma {:induction false} TimDemThu(b: Bai, i: nat, daChon: BangChon, n: int, w: nat)
    requires i < |b.thuTu| && ToiDa(b, w) && n <= GIOI_HAN_NUT && b.UngVien(i) != []
    ensures var r := Tim(b, i, daChon, n);
            r.soLanGoi >= 1 && DemDung(n, r.soNut, r.soLanGoi, 1, w)
    decreases |b.thuTu| - i, 0, |b.UngVien(i)| + 1
  {
    var i', n' := i + 1, n + 1;
    RankingSize(b, i);
    ThuLopRong(b, i, daChon, 0, n', None);
    if ThuLop(b, i, daChon, 0, n', None).best.None? {
      TimDem(b, i', daChon, n', w);
      TimBoQua(b, i, daChon, n, w, i', n');
    } else {
      ThuLopDem(b, i, daChon, 0, n', None, w);
      TimCoLop(b, i, daChon, n, w, n');
    }
  }

  lemma TimBoQua(b: Bai, i: nat, daChon: BangChon, n: int, w: nat, i': nat, n': int)
    requires i < |b.thuTu| && ToiDa(b, w) && n <= GIOI_HAN_NUT && b.UngVien(i) != [] && i' == i + 1 && n' == n + 1
    requires ThuLop(b, i, daChon, 0, n', None) == LanThu(None, n', 0)
    requires var sub := Tim(b, i', daChon, n'); DemDung(n', sub.soNut, sub.soLanGoi, 1, w)
    ensures var r := Tim(b, i, daChon, n); r.soLanGoi >= 1 && DemDung(n, r.soNut, r.soLanGoi, 1, w)
  {
    var r, sub := Tim(b, i, daChon, n), Tim(b, i', daChon, n');
    assert r.soNut == sub.soNut && r.soLanGoi == 1 + sub.soLanGoi;
    DemMotNut(n, sub.soNut, sub.soLanGoi, 1, w);
  }

  lemma TimCoLop(b: Bai, i: nat, daChon: BangChon, n: int, w: nat, n': int)
    requires n' == n + 1 && i < |b.thuTu| && n <= GIOI_HAN_NUT && b.UngVien(i) != [] && |b.XepHang(i)| <= w
    requires var thu := ThuLop(b, i, daChon, 0, n', None);
             thu.best.Some? && DemDung(n', thu.soNut, thu.soLanGoi, |b.XepHang(i)|, w)
    ensures var r := Tim(b, i, daChon, n); r.soLanGoi >= 1 && DemDung(n, r.soNut, r.soLanGoi, 1, w)
  {
    var r, thu := Tim(b, i, daChon, n), ThuLop(b, i, daChon, 0, n', None);
    assert r.soNut == thu.soNut && r.soLanGoi == 1 + thu.soLanGoi;
    DemMotNut(n, thu.soNut, thu.soLanGoi, |b.XepHang(i)|, w);
  }

  lemma DemKhong(n: int, w: nat)
    ensures DemDung(n, n, 1, 1, w)
  {
  }

  ghost predicate DemDung(n: int, r: int, goi: nat, boi: nat, w: nat) {
    n <= r && (r <= n || r <= GIOI_HAN_NUT + 1) && goi <= boi + Lap(r - n, w)
  }

  lemma DemNoi(n: int, r: int, goi: nat, boi: nat, r': int, goi': nat, boi': nat, w: nat)
    requires DemDung(n, r, goi, boi, w) && DemDung(r, r', goi', boi', w)
    ensures DemDung(n, r', goi + goi', boi + boi', w)
  {
    LapCong(r - n, r' - r, w);
  }

  /** One more node, itself one call, with at most w calls below it not yet counted. */
  lemma DemMotNut(n: int, r: int, goi: nat, boi: nat, w: nat)
    requires DemDung(n + 1, r, goi, boi, w) && boi <= w && n <= GIOI_HAN_NUT
    ensures DemDung(n, r, 1 + goi, 1, w)
  {
    LapCong(1, r - n - 1, w);
  }

  lemma DemThua(n: int, r: int, goi: nat, boi: nat, boi': nat, w: nat)
    requires DemDung(n, r, goi, boi, w) && boi <= boi'
    ensures DemDung(n, r, goi, boi', w)
  {
  }

  lemma {:induction false} ThuLopDem(
      b: Bai, i: nat, daChon: BangChon, k: nat, n: int, best: Option<KetQua>, w: nat)
    requires i < |b.thuTu| && k <= |b.XepHang(i)| && ToiDa(b, w)
    ensures var r := ThuLop(b, i, daChon, k, n, best);
            DemDung(n, r.soNut, r.soLanGoi, |b.XepHang(i)| - k, w)
    decreases |b.thuTu| - i, 0, |b.XepHang(i)| - k, 1
  {
    if k < |b.XepHang(i)| && n <= GIOI_HAN_NUT {
      if Hop(b.XepHang(i)[k].0, daChon) {
        ThuLopDemTiep(b, i, daChon, k, n, best, w);
      } else {
        ThuLopDem(b, i, daChon, k + 1, n, best, w);
        var r := ThuLop(b, i, daChon, k + 1, n, best);
        DemThua(n, r.soNut, r.soLanGoi, |b.XepHang(i)| - k - 1, |b.XepHang(i)| - k, w);
      }
    }
  }

  lemma {:induction false} ThuLopDemTiep(
      b: Bai, i: nat, daChon: BangChon, k: nat, n: int, best: Option<KetQua>, w: nat)
    requires i < |b.thuTu| && k < |b.XepHang(i)| && ToiDa(b, w)
    requires n <= GIOI_HAN_NUT && Hop(b.XepHang(i)[k].0, daChon)
    ensures var r := ThuLop(b, i, daChon, k, n, best);
            DemDung(n, r.soNut, r.soLanGoi, |b.XepHang(i)| - k, w)
    decreases |b.thuTu| - i, 0, |b.XepHang(i)| - k, 0
  {
    var t, con := ThuLop(b, i, daChon, k, n, best), |b.XepHang(i)| - k;
    var (lop, diem) := b.XepHang(i)[k];
    var d' := daChon[b.Ma(i) := lop];
    var sub := Tim(b, i + 1, d', n);
    var moi := Giu(best, CongDiem(sub.kq, diem));
    TimDem(b, i + 1, d', n, w);
    if moi.khongXepDuoc == [] {
      assert t.soNut == sub.soNut && t.soLanGoi == sub.soLanGoi;
      DemThua(n, sub.soNut, sub.soLanGoi, 1, con, w);
    } else {
      var r := ThuLop(b, i, daChon, k + 1, sub.soNut, Some(moi));
      assert t.soNut == r.soNut && t.soLanGoi == sub.soLanGoi + r.soLanGoi;
      ThuLopDem(b, i, daChon, k + 1, sub.soNut, Some(moi), w);
      DemNoi(n, sub.soNut, sub.soLanGoi, 1, r.soNut, r.soLanGoi, con - 1, w);
    }
  }

  /** A loop that ends without a result has tried nothing; one that had a result keeps one. */
  lemma {:induction false} ThuLopRong(b: Bai, i: nat, daChon: BangChon, k: nat, n: int, best: Option<KetQua>)
    requires i < |b.thuTu| && k <= |b.XepHang(i)|
    ensures var r := ThuLop(b, i, daChon, k, n, best);
            (best.Some? ==> r.best.Some?) && (r.best.None? ==> r.soNut == n && r.soLanGoi == 0)
    decreases |b.XepHang(i)| - k
  {
    var ds := b.XepHang(i);
    if k < |ds| && n <= GIOI_HAN_NUT {
      if !Hop(ds[k].0, daChon) {
        ThuLopRong(b, i, daChon, k + 1, n, best);
      } else {
        var sub := Tim(b, i + 1, daChon[b.Ma(i) := ds[k].0], n);
        ThuLopRong(b, i, daChon, k + 1, sub.soNut, Some(Giu(best, CongDiem(sub.kq, ds[k].1))));
      }
    }
  }

  /** A run from a reset counter. */
  lemma WorkBound(b: Bai, daChon: BangChon, w: nat)
    requires ToiDa(b, w)
    ensures var r := Tim(b, 0, daChon, 0);
            0 <= r.soNut <= GIOI_HAN_NUT + 1 && r.soLanGoi <= 1 + (GIOI_HAN_NUT + 1) * w
  {
    TimDem(b, 0, daChon, 0, w);
    var m := GIOI_HAN_NUT + 1;
    var d := Tim(b, 0, daChon, 0).soNut;
    LapCong(d, m - d, w);
    LapTich(m, w);
  }

  /** The most nodes the search can count from course i on, whatever the limit. */
  function NutToiDa(b: Bai, i: nat): nat
    requires i <= |b.thuTu|
    decreases |b.thuTu| - i
  {
    if i == |b.thuTu| then 0 else 1 + Lap(Max(1, |b.UngVien(i)|), NutToiDa(b, i + 1))
  }

  /** On a small problem the counter stays small. */
  lemma {:induction false} NodesBounded(b: Bai, i: nat, daChon: BangChon, n: int)
    requires i <= |b.thuTu|
    ensures Tim(b, i, daChon, n).soNut <= n + NutToiDa(b, i)
    decreases |b.thuTu| - i, 1, 0
  {
    if i < |b.thuTu| && n <= GIOI_HAN_NUT {
      var m := NutToiDa(b, i + 1);
      if b.UngVien(i) == [] {
        NodesBounded(b, i + 1, daChon, n + 1);
        assert Lap(1, m) == m;
      } else {
        RankingSize(b, i);
        LoopNodesBounded(b, i, daChon, 0, n + 1, None);
        ThuLopRong(b, i, daChon, 0, n + 1, None);
        NodesBounded(b, i + 1, daChon, n + 1);
        LapCong(1, |b.UngVien(i)| - 1, m);
        assert Lap(1, m) == m;
      }
    }
  }

  lemma {:induction false} LoopNodesBounded(b: Bai, i: nat, daChon: BangChon, k: nat, n: int, best: Option<KetQua>)
    requires i < |b.thuTu| && k <= |b.XepHang(i)|
    ensures ThuLop(b, i, daChon, k, n, best).soNut <= n + Lap(|b.XepHang(i)| - k, NutToiDa(b, i + 1))
    decreases |b.thuTu| - i, 0, |b.XepHang(i)| - k, 1
  {
    if k < |b.XepHang(i)| && n <= GIOI_HAN_NUT {
      if Hop(b.XepHang(i)[k].0, daChon) {
        BranchNodesBounded(b, i, daChon, k, n, best);
      } else {
        var m, con: nat := NutToiDa(b, i + 1), |b.XepHang(i)| - k;
        var conTiep := Lap(con - 1, m);
        assert ThuLop(b, i, daChon, k, n, best).soNut <= n + conTiep by {
          LoopNodesBounded(b, i, daChon, k + 1, n, best);
        }
        LapThem(con, m);
      }
    }
  }

  lemma NhanhBuoc(b: Bai, i: nat, daChon: BangChon, k: nat, n: int, best: Option<KetQua>) returns (tiep: nat)
    requires i < |b.thuTu| && k < |b.XepHang(i)| && n <= GIOI_HAN_NUT && Hop(b.XepHang(i)[k].0, daChon)
    ensures tiep == k + 1
    ensures var (lop, diem) := b.XepHang(i)[k];
            var sub := Tim(b, i + 1, daChon[b.Ma(i) := lop], n);
            var moi := Giu(best, CongDiem(sub.kq, diem));
            ThuLop(b, i, daChon, k, n, best).soNut ==
            if moi.khongXepDuoc == [] then sub.soNut else ThuLop(b, i, daChon, tiep, sub.soNut, Some(moi)).soNut
  {
    tiep := k + 1;
  }

  lemma {:induction false} BranchNodesBounded(b: Bai, i: nat, daChon: BangChon, k: nat, n: int, best: Option<KetQua>)
    requires i < |b.thuTu| && k < |b.XepHang(i)| && n <= GIOI_HAN_NUT && Hop(b.XepHang(i)[k].0, daChon)
    ensures ThuLop(b, i, daChon, k, n, best).soNut <= n + Lap(|b.XepHang(i)| - k, NutToiDa(b, i + 1))
    decreases |b.thuTu| - i, 0, |b.XepHang(i)| - k, 0
  {
    var (lop, diem) := b.XepHang(i)[k];
    var d' := daChon[b.Ma(i) := lop];
    var sub := Tim(b, i + 1, d', n);
    var moi := Giu(best, CongDiem(sub.kq, diem));
    var r := ThuLop(b, i, daChon, k, n, best).soNut;
    var m, con: nat := NutToiDa(b, i + 1), |b.XepHang(i)| - k;
    var conTiep := Lap(con - 1, m);
    assert sub.soNut <= n + m by { NodesBounded(b, i + 1, d', n); }
    assert r <= n + m + conTiep by {
      var tiep := NhanhBuoc(b, i, daChon, k, n, best);
      if moi.khongXepDuoc != [] { LoopNodesBounded(b, i, daChon, tiep, sub.soNut, Some(moi)); }
    }
    LapThem(con, m);
  }

  // ---------------------------------------------------------------- within the budget

  lemma {:induction false} DayDuGiuNguyen(b: Bai, i: nat, daChon: BangChon, k: nat, l: nat)
    requires i < |b.thuTu| && k <= l <= |b.XepHang(i)|
    requires var t := TotNhat(b, i, daChon, k); t.Some? && t.value.khongXepDuoc == []
    ensures TotNhat(b, i, daChon, l) == TotNhat(b, i, daChon, k)
    decreases l
  {
    if k < l { DayDuGiuNguyen(b, i, daChon, k, l - 1); }
  }

  lemma SoNutTang(b: Bai, i: nat, daChon: BangChon, n: int)
    requires i <= |b.thuTu|
    ensures n <= Tim(b, i, daChon, n).soNut
  {
    TimDem(b, i, daChon, n, Rong(b, |b.thuTu|));
  }

  lemma ThuLopTang(b: Bai, i: nat, daChon: BangChon, k: nat, n: int, best: Option<KetQua>)
    requires i < |b.thuTu| && k <= |b.XepHang(i)|
    ensures n <= ThuLop(b, i, daChon, k, n, best).soNut
  {
    ThuLopDem(b, i, daChon, k, n, best, Rong(b, |b.thuTu|));
  }

  /** The longest list of classes, or 1. */
  function Rong(b: Bai, m: nat): (w: nat)
    requires m <= |b.thuTu|
    ensures w >= 1 && forall j :: 0 <= j < m ==> |b.UngVien(j)| <= w
  {
    if m == 0 then 1 else Max(Rong(b, m - 1), |b.UngVien(m - 1)|)
  }

  /** When the counter at exit is within the limit, the search returned the reference result. */
  lemma {:induction false} WithinBudget(b: Bai, i: nat, daChon: BangChon, n: int)
    requires i <= |b.thuTu| && Tim(b, i, daChon, n).soNut <= GIOI_HAN_NUT
    ensures Tim(b, i, daChon, n).kq == Giai(b, i, daChon)
    decreases |b.thuTu| - i, 1, 0
  {
    SoNutTang(b, i, daChon, n);
    if i < |b.thuTu| {
      if b.UngVien(i) == [] {
        WithinBudget(b, i + 1, daChon, n + 1);
      } else {
        var thu := ThuLop(b, i, daChon, 0, n + 1, None);
        if thu.best.None? { SoNutTang(b, i + 1, daChon, thu.soNut); }
        ThuLopWithinBudget(b, i, daChon, 0, n + 1, None);
        if thu.best.None? { WithinBudget(b, i + 1, daChon, thu.soNut); }
      }
    }
  }

  lemma {:induction false} ThuLopWithinBudget(
      b: Bai, i: nat, daChon: BangChon, k: nat, n: int, best: Option<KetQua>)
    requires i < |b.thuTu| && k <= |b.XepHang(i)|
    requires best == TotNhat(b, i, daChon, k) && (best.Some? ==> best.value.khongXepDuoc != [])
    requires ThuLop(b, i, daChon, k, n, best).soNut <= GIOI_HAN_NUT
    ensures ThuLop(b, i, daChon, k, n, best).best == TotNhat(b, i, daChon, |b.XepHang(i)|)
    decreases |b.thuTu| - i, 0, |b.XepHang(i)| - k
  {
    var ds := b.XepHang(i);
    ThuLopTang(b, i, daChon, k, n, best);
    if k < |ds| {
      if !Hop(ds[k].0, daChon) {
        ThuLopWithinBudget(b, i, daChon, k + 1, n, best);
      } else {
        var d' := daChon[b.Ma(i) := ds[k].0];
        var sub := Tim(b, i + 1, d', n);
        var moi := Giu(best, CongDiem(sub.kq, ds[k].1));
        if moi.khongXepDuoc != [] { ThuLopTang(b, i, daChon, k + 1, sub.soNut, Some(moi)); }
        WithinBudget(b, i + 1, d', n);
        assert TotNhat(b, i, daChon, k + 1) == Some(moi);
        if moi.khongXepDuoc == [] {
          DayDuGiuNguyen(b, i, daChon, k + 1, |ds|);
        } else {
          ThuLopWithinBudget(b, i, daChon, k + 1, sub.soNut, Some(moi));
        }
      }
    }
  }

  // ---------------------------------------------------------------- the stated reason

  /** Whether some class from rank k on is compatible. */
  lemma {:induction false} ThuLopNone(b: Bai, i: nat, daChon: BangChon, k: nat, n: int)
    requires i < |b.thuTu| && k <= |b.XepHang(i)|
    ensures ThuLop(b, i, daChon, k, n, None).best.None? <==>
            n > GIOI_HAN_NUT || forall r :: k <= r < |b.XepHang(i)| ==> !Hop(b.XepHang(i)[r].0, daChon)
    decreases |b.XepHang(i)| - k
  {
    var ds := b.XepHang(i);
    if k < |ds| && n <= GIOI_HAN_NUT {
      if !Hop(ds[k].0, daChon) {
        ThuLopNone(b, i, daChon, k + 1, n);
      } else {
        var sub := Tim(b, i + 1, daChon[b.Ma(i) := ds[k].0], n);
        ThuLopRong(b, i, daChon, k + 1, sub.soNut, Some(CongDiem(sub.kq, ds[k].1)));
      }
    }
  }

  lemma ThuLopKhong(b: Bai, i: nat, daChon: BangChon, n: int)
    requires i < |b.thuTu| && n <= GIOI_HAN_NUT
    ensures ThuLop(b, i, daChon, 0, n + 1, None).best.None? <==>
            n == GIOI_HAN_NUT || forall l :: l in b.UngVien(i) ==> !Hop(l, daChon)
  {
    RankingSorts(b, i);
    ThuLopNone(b, i, daChon, 0, n + 1);
  }

  lemma TimTheoThu(b: Bai, i: nat, daChon: BangChon, n: int)
    requires i < |b.thuTu| && b.UngVien(i) != [] && n <= GIOI_HAN_NUT
    ensures var thu, kq := ThuLop(b, i, daChon, 0, n + 1, None), Tim(b, i, daChon, n).kq;
            if thu.best.Some? then kq == thu.best.value
            else kq == ThemDau(Tim(b, i + 1, daChon, thu.soNut).kq, b.thuTu[i].tenMonHoc, TrungGio)
  {
  }

  lemma BoQuaKhongCo(b: Bai, i: nat, daChon: BangChon, n: int)
    requires i < |b.thuTu| && Rieng(b, i, daChon)
    ensures b.Ma(i) !in Tim(b, i + 1, daChon, n).kq.chon
  {
    assert Rieng(b, i + 1, daChon);
    TimDung(b, i + 1, daChon, n);
    assert b.thuTu[i].maMonHoc !in daChon;
    assert b.Ma(i) !in MaTu(b, i + 1);
  }

  lemma XepKhiCoLop(b: Bai, i: nat, daChon: BangChon, n: int)
    requires i < |b.thuTu| && Rieng(b, i, daChon) && b.UngVien(i) != [] && n <= GIOI_HAN_NUT
    ensures var kq := Tim(b, i, daChon, n).kq;
            if ThuLop(b, i, daChon, 0, n + 1, None).best.Some? then b.Ma(i) in kq.chon
            else b.Ma(i) !in kq.chon && kq.khongXepDuoc != [] &&
                 kq.khongXepDuoc[0] == MonKhongXep(b.thuTu[i].tenMonHoc, TrungGio)
  {
    var thu := ThuLop(b, i, daChon, 0, n + 1, None);
    TimTheoThu(b, i, daChon, n);
    if thu.best.Some? { ThuLopCoMon(b, i, daChon, 0, n + 1, None); } else { BoQuaKhongCo(b, i, daChon, thu.soNut); }
  }

  /** A course that has classes is left out, with the reason that they all clash, exactly when they
      all do clash with what was chosen before, or the counter stands at the limit on entry. */
  lemma ReasonExact(b: Bai, i: nat, daChon: BangChon, n: int)
    requires i < |b.thuTu| && Rieng(b, i, daChon) && b.UngVien(i) != [] && n <= GIOI_HAN_NUT
    ensures var kq := Tim(b, i, daChon, n).kq;
            && (b.Ma(i) !in kq.chon <==> n == GIOI_HAN_NUT || forall l :: l in b.UngVien(i) ==> !Hop(l, daChon))
            && (b.Ma(i) !in kq.chon ==> kq.khongXepDuoc != [] &&
                                        kq.khongXepDuoc[0] == MonKhongXep(b.thuTu[i].tenMonHoc, TrungGio))
  {
    XepKhiCoLop(b, i, daChon, n);
    ThuLopKhong(b, i, daChon, n);
  }

  lemma ThuMotCoMon(b: Bai, i: nat, daChon: BangChon, lop: LopHoc, n: int)
    requires i < |b.thuTu| && Rieng(b, i, daChon)
    ensures b.Ma(i) in Tim(b, i + 1, daChon[b.Ma(i) := lop], n).kq.chon
  {
    RiengTiep(b, i, daChon, lop);
    TimDung(b, i + 1, daChon[b.Ma(i) := lop], n);
    assert b.Ma(i) in daChon[b.Ma(i) := lop];
  }

  lemma {:induction false} ThuLopCoMon(b: Bai, i: nat, daChon: BangChon, k: nat, n: int, best: Option<KetQua>)
    requires i < |b.thuTu| && k <= |b.XepHang(i)| && Rieng(b, i, daChon)
    requires best.Some? ==> b.Ma(i) in best.value.chon
    ensures var thu := ThuLop(b, i, daChon, k, n, best); thu.best.Some? ==> b.Ma(i) in thu.best.value.chon
    decreases |b.XepHang(i)| - k, 1
  {
    if k < |b.XepHang(i)| && n <= GIOI_HAN_NUT {
      if Hop(b.XepHang(i)[k].0, daChon) {
        ThuLopCoMonTiep(b, i, daChon, k, n, best);
      } else {
        ThuLopCoMon(b, i, daChon, k + 1, n, best);
      }
    }
  }

  lemma {:induction false} ThuLopCoMonTiep(b: Bai, i: nat, daChon: BangChon, k: nat, n: int, best: Option<KetQua>)
    requires i < |b.thuTu| && k < |b.XepHang(i)| && Rieng(b, i, daChon)
    requires n <= GIOI_HAN_NUT && Hop(b.XepHang(i)[k].0, daChon)
    requires best.Some? ==> b.Ma(i) in best.value.chon
    ensures var thu := ThuLop(b, i, daChon, k, n, best); thu.best.Some? ==> b.Ma(i) in thu.best.value.chon
    decreases |b.XepHang(i)| - k, 0
  {
    var (lop, diem) := b.XepHang(i)[k];
    var sub := Tim(b, i + 1, daChon[b.Ma(i) := lop], n);
    var moi := Giu(best, CongDiem(sub.kq, diem));
    ThuMotCoMon(b, i, daChon, lop, n);
    if moi.khongXepDuoc != [] { ThuLopCoMon(b, i, daChon, k + 1, sub.soNut, Some(moi)); }
  }
}
