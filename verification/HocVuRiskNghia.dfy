/** The running credits and points of the training set against the rule that counts each course once. */
module HocVuRiskNghia {
  import opened Collections
  import opened TichLuyDiem
  import opened HocVuRisk

  /** The best grade of a course among some rows, 0 without one. */
  function Z(rows: seq<Dong>, m: nat): nat {
    if TotNhatCua(rows, m).Some? then TotNhatCua(rows, m).value.z else 0
  }

  /** Course credits are those of the table. */
  ghost predicate TheoBang(rows: seq<Dong>, tc: map<nat, nat>) {
    forall d :: d in rows ==> d.maMonHoc in tc && tc[d.maMonHoc] == d.soTinChi
  }

  ghost function TinChiTheo(rows: seq<Dong>, tc: map<nat, nat>): map<nat, nat> {
    map m | m in tc :: if Z(rows, m) >= DIEM_DAT then tc[m] else 0
  }

  ghost function DiemTheo(rows: seq<Dong>, tc: map<nat, nat>): map<nat, nat> {
    map m | m in tc :: if Z(rows, m) >= DIEM_DAT then Thang4(Z(rows, m)) * tc[m] else 0
  }

  lemma MotMonTheo(rows: seq<Dong>, tc: map<nat, nat>, m: nat)
    requires TheoBang(rows, tc)
    ensures m in TinChiDat(rows) <==> m in tc && Z(rows, m) >= DIEM_DAT
    ensures m in TinChiDat(rows) ==> TinChiDat(rows)[m] == tc[m] && DiemDat(rows)[m] == Thang4(Z(rows, m)) * tc[m]
    ensures m in DiemDat(rows) <==> m in TinChiDat(rows)
  {
    BangNghia(rows, m);
    TotNhatNghia(rows, m);
  }

  lemma TongTheoMon(rows: seq<Dong>, tc: map<nat, nat>)
    requires TheoBang(rows, tc)
    ensures Total(TinChiDat(rows)) == Total(TinChiTheo(rows, tc)) && Total(DiemDat(rows)) == Total(DiemTheo(rows, tc))
  {
    var c, p, d, q := TinChiDat(rows), DiemDat(rows), TinChiTheo(rows, tc), DiemTheo(rows, tc);
    forall m: nat
      ensures (m in c <==> m in tc && Z(rows, m) >= DIEM_DAT) && (m in p <==> m in c)
      ensures m in c ==> c[m] == tc[m] && p[m] == Thang4(Z(rows, m)) * tc[m]
    {
      MotMonTheo(rows, tc, m);
    }
    assert d.Keys == tc.Keys && q.Keys == tc.Keys;
    TotalPadded(c, d);
    TotalPadded(p, q);
  }

  lemma ZNoi(a: seq<Dong>, b: seq<Dong>, m: nat)
    ensures Z(a + b, m) == if Z(a, m) < Z(b, m) then Z(b, m) else Z(a, m)
  {
    TotNhatNghia(a, m);
    TotNhatNghia(b, m);
    TotNhatNghia(a + b, m);
    assert forall d :: d in a + b <==> d in a || d in b;
  }

  // ---------------------------------------------------------------- terms

  function DongKy(ls: seq<LuotHoc>, hk: nat): seq<Dong> { Dongs(CuaKy(ls, hk)) }

  /** The rows of the first n terms. */
  ghost function DongTrong(ls: seq<LuotHoc>, kys: seq<nat>, n: nat): seq<Dong>
    requires n <= |kys|
  {
    if n == 0 then [] else DongTrong(ls, kys, n - 1) + DongKy(ls, kys[n - 1])
  }

  /** In how many of the first n terms the course was passed. */
  function SoKyDat(ls: seq<LuotHoc>, kys: seq<nat>, n: nat, m: nat): nat
    requires n <= |kys|
  {
    if n == 0 then 0
    else SoKyDat(ls, kys, n - 1, m) + (if Z(DongKy(ls, kys[n - 1]), m) >= DIEM_DAT then 1 else 0)
  }

  /** The points a course brought in the first n terms. */
  function DiemMon(ls: seq<LuotHoc>, kys: seq<nat>, n: nat, m: nat, c: nat): nat
    requires n <= |kys|
  {
    if n == 0 then 0
    else
      var z := Z(DongKy(ls, kys[n - 1]), m);
      DiemMon(ls, kys, n - 1, m, c) + (if z >= DIEM_DAT then Thang4(z) * c else 0)
  }

  ghost predicate LuotTheoBang(ls: seq<LuotHoc>, tc: map<nat, nat>) {
    forall l :: l in ls ==> l.maMonHoc in tc && tc[l.maMonHoc] == l.soTinChi
  }

  lemma {:induction false} DongsTheoBang(ls: seq<LuotHoc>, tc: map<nat, nat>)
    requires LuotTheoBang(ls, tc)
    ensures TheoBang(Dongs(ls), tc)
  {
    if ls != [] {
      var l, sau := ls[0], ls[1..];
      assert l in ls;
      assert forall x :: x in sau ==> x in ls;
      DongsTheoBang(sau, tc);
      var d := Dong(l.maMonHoc, l.soTinChi, l.diemZ);
      forall x | x in Dongs(ls) ensures x.maMonHoc in tc && tc[x.maMonHoc] == x.soTinChi {
        assert x == d || x in Dongs(sau);
      }
    }
  }

  lemma {:induction false} CuaKyTrong(ls: seq<LuotHoc>, hk: nat, l: LuotHoc)
    requires l in CuaKy(ls, hk)
    ensures l in ls
  {
    if ls != [] {
      if !(ls[0].maHocKy == hk && l == ls[0]) { CuaKyTrong(ls[1..], hk, l); }
    }
  }

  lemma CuaKyTheoBang(ls: seq<LuotHoc>, hk: nat, tc: map<nat, nat>)
    requires LuotTheoBang(ls, tc)
    ensures TheoBang(DongKy(ls, hk), tc)
  {
    forall l | l in CuaKy(ls, hk) ensures l in ls { CuaKyTrong(ls, hk, l); }
    DongsTheoBang(CuaKy(ls, hk), tc);
  }

  lemma {:induction false} DongTrongTheoBang(ls: seq<LuotHoc>, kys: seq<nat>, n: nat, tc: map<nat, nat>)
    requires n <= |kys| && LuotTheoBang(ls, tc)
    ensures TheoBang(DongTrong(ls, kys, n), tc)
  {
    if n > 0 {
      DongTrongTheoBang(ls, kys, n - 1, tc);
      CuaKyTheoBang(ls, kys[n - 1], tc);
    }
  }

  ghost function TinChiChay(ls: seq<LuotHoc>, kys: seq<nat>, n: nat, tc: map<nat, nat>): map<nat, nat>
    requires n <= |kys|
  {
    map m | m in tc :: SoKyDat(ls, kys, n, m) * tc[m]
  }

  ghost function DiemChay(ls: seq<LuotHoc>, kys: seq<nat>, n: nat, tc: map<nat, nat>): map<nat, nat>
    requires n <= |kys|
  {
    map m | m in tc :: DiemMon(ls, kys, n, m, tc[m])
  }

  lemma TichLuyMotKy(ls: seq<LuotHoc>, hk: nat, tc: map<nat, nat>)
    requires LuotTheoBang(ls, tc)
    ensures TinChiDatKy(ls, hk) == Total(TinChiTheo(DongKy(ls, hk), tc))
    ensures DiemDatKy(ls, hk) == Total(DiemTheo(DongKy(ls, hk), tc))
  {
    var rows := DongKy(ls, hk);
    CuaKyTheoBang(ls, hk, tc);
    TongHaiDs(rows);
    TongTheoMon(rows, tc);
  }

  lemma ThemMotKy(ls: seq<LuotHoc>, kys: seq<nat>, n: nat, tc: map<nat, nat>)
    requires 0 < n <= |kys|
    ensures Total(TinChiChay(ls, kys, n, tc)) ==
            Total(TinChiChay(ls, kys, n - 1, tc)) + Total(TinChiTheo(DongKy(ls, kys[n - 1]), tc))
    ensures Total(DiemChay(ls, kys, n, tc)) ==
            Total(DiemChay(ls, kys, n - 1, tc)) + Total(DiemTheo(DongKy(ls, kys[n - 1]), tc))
  {
    var rows := DongKy(ls, kys[n - 1]);
    var c0, c1, c2 := TinChiChay(ls, kys, n - 1, tc), TinChiTheo(rows, tc), TinChiChay(ls, kys, n, tc);
    forall m: nat | m in tc ensures c2[m] == c0[m] + c1[m] { NhanThem(SoKyDat(ls, kys, n - 1, m), tc[m]); }
    assert c0.Keys == tc.Keys && c1.Keys == tc.Keys && c2.Keys == tc.Keys;
    TotalPlus(c0, c1, c2);
    var d0, d1, d2 := DiemChay(ls, kys, n - 1, tc), DiemTheo(rows, tc), DiemChay(ls, kys, n, tc);
    assert d0.Keys == tc.Keys && d1.Keys == tc.Keys && d2.Keys == tc.Keys;
    TotalPlus(d0, d1, d2);
  }

  /** After any number of terms the running credits are the sum over courses of credits times the
      number of those terms in which the course was passed; likewise the points. */
  lemma {:induction false} RunningTotals(ls: seq<LuotHoc>, kys: seq<nat>, n: nat, tc: map<nat, nat>)
    requires n <= |kys| && LuotTheoBang(ls, tc)
    ensures TinChiSau(ls, kys, n) == Total(TinChiChay(ls, kys, n, tc))
    ensures DiemSau(ls, kys, n) == Total(DiemChay(ls, kys, n, tc))
  {
    if n == 0 {
      TotalZero(TinChiChay(ls, kys, 0, tc));
      TotalZero(DiemChay(ls, kys, 0, tc));
    } else {
      RunningTotals(ls, kys, n - 1, tc);
      TichLuyMotKy(ls, kys[n - 1], tc);
      ThemMotKy(ls, kys, n, tc);
    }
  }

  lemma NhanThem(a: nat, c: nat)
    ensures (a + 1) * c == a * c + c
  {
  }

  // ---------------------------------------------------------------- against the batch rule

  /** A course of c credits with best grade z, passed in k terms with d points in all. */
  ghost predicate KhopMon(z: nat, k: nat, d: nat, c: nat) {
    && (z >= DIEM_DAT <==> k >= 1) && (k == 0 ==> d == 0) && (k == 1 ==> d == Thang4(z) * c)
    && (k >= 2 ==> d >= Thang4(z) * c + 10 * c) && (c == 0 ==> d == 0)
  }

  /** How one more term changes the best grade, the number of passes and the points of a course. */
  lemma ThemKyMon(z: nat, k: nat, d: nat, zk: nat, c: nat)
    requires KhopMon(z, k, d, c)
    ensures KhopMon(if z < zk then zk else z, k + if zk >= DIEM_DAT then 1 else 0,
                    d + if zk >= DIEM_DAT then Thang4(zk) * c else 0, c)
  {
    if z >= DIEM_DAT && zk >= DIEM_DAT {
      NhanTang(10, Thang4(z), c);
      NhanTang(10, Thang4(zk), c);
    }
  }

  /** What term n adds to the record of a course. */
  lemma BuocMon(ls: seq<LuotHoc>, kys: seq<nat>, n: nat, m: nat, c: nat) returns (zk: nat)
    requires n < |kys|
    ensures var z := Z(DongTrong(ls, kys, n), m); Z(DongTrong(ls, kys, n + 1), m) == if z < zk then zk else z
    ensures SoKyDat(ls, kys, n + 1, m) == SoKyDat(ls, kys, n, m) + if zk >= DIEM_DAT then 1 else 0
    ensures DiemMon(ls, kys, n + 1, m, c) == DiemMon(ls, kys, n, m, c) + if zk >= DIEM_DAT then Thang4(zk) * c else 0
  {
    zk := Z(DongKy(ls, kys[n]), m);
    ZNoi(DongTrong(ls, kys, n), DongKy(ls, kys[n]), m);
  }

  lemma {:induction false} DatTrongNghia(ls: seq<LuotHoc>, kys: seq<nat>, n: nat, m: nat, c: nat)
    requires n <= |kys|
    ensures KhopMon(Z(DongTrong(ls, kys, n), m), SoKyDat(ls, kys, n, m), DiemMon(ls, kys, n, m, c), c)
  {
    if n > 0 {
      var i: nat := n - 1;
      DatTrongNghia(ls, kys, i, m, c);
      var zk := BuocMon(ls, kys, i, m, c);
      ThemKyMon(Z(DongTrong(ls, kys, i), m), SoKyDat(ls, kys, i, m), DiemMon(ls, kys, i, m, c), zk, c);
    }
  }

  /** Once at best grade z against k passes with d points in all, for a course of c credits. */
  lemma SoSanhMon(z: nat, k: nat, d: nat, c: nat)
    requires KhopMon(z, k, d, c)
    ensures var tin, diem := if z >= DIEM_DAT then c else 0, if z >= DIEM_DAT then Thang4(z) * c else 0;
            && tin <= k * c && diem <= d
            && (tin == k * c <==> c == 0 || k <= 1) && (diem == d <==> c == 0 || k <= 1)
  {
    if k >= 1 { NhanTang(1, k, c); }
    if k > 1 { NhanTang(2, k, c); }
  }

  /** One course's credits and points, once at the best grade against once in every term passed. */
  lemma MotMonTrung(ls: seq<LuotHoc>, kys: seq<nat>, n: nat, tc: map<nat, nat>, m: nat)
    requires n <= |kys| && m in tc
    ensures var rows := DongTrong(ls, kys, n);
            var c, p := TinChiTheo(rows, tc), DiemTheo(rows, tc);
            var d, q := TinChiChay(ls, kys, n, tc), DiemChay(ls, kys, n, tc);
            && c[m] <= d[m] && p[m] <= q[m]
            && (c[m] == d[m] <==> tc[m] == 0 || SoKyDat(ls, kys, n, m) <= 1)
            && (p[m] == q[m] <==> tc[m] == 0 || SoKyDat(ls, kys, n, m) <= 1)
  {
    DatTrongNghia(ls, kys, n, m, tc[m]);
    SoSanhMon(Z(DongTrong(ls, kys, n), m), SoKyDat(ls, kys, n, m), DiemMon(ls, kys, n, m, tc[m]), tc[m]);
  }

  ghost predicate QuaMotLan(ls: seq<LuotHoc>, kys: seq<nat>, n: nat, tc: map<nat, nat>)
    requires n <= |kys|
  {
    forall m: nat :: m in tc && tc[m] > 0 ==> SoKyDat(ls, kys, n, m) <= 1
  }

  /** Tables compared course by course have equal totals exactly when no course differs. */
  lemma BangTongBang(a: map<nat, nat>, b: map<nat, nat>)
    requires a.Keys == b.Keys && forall m: nat :: m in a ==> a[m] <= b[m]
    ensures Total(a) <= Total(b)
    ensures Total(a) == Total(b) <==> forall m: nat :: m in a ==> a[m] == b[m]
  {
    TotalMonotone(a, b);
    if forall m: nat :: m in a ==> a[m] == b[m] {
      assert a == b;
    } else {
      var m: nat :| m in a && a[m] != b[m];
      TotalStrict(a, b, m);
    }
  }

  /** The running credits and points are never below those the cached rule gives for the rows of the
      same terms. Each agrees exactly when every course with credits was passed in at most one of the
      terms. */
  lemma RunningAgainstBatch(ls: seq<LuotHoc>, kys: seq<nat>, n: nat, tc: map<nat, nat>)
    requires n <= |kys| && LuotTheoBang(ls, tc)
    ensures var rows := DongTrong(ls, kys, n);
            && Total(TinChiDat(rows)) <= TinChiSau(ls, kys, n) && Total(DiemDat(rows)) <= DiemSau(ls, kys, n)
            && (Total(TinChiDat(rows)) == TinChiSau(ls, kys, n) <==> QuaMotLan(ls, kys, n, tc))
            && (Total(DiemDat(rows)) == DiemSau(ls, kys, n) <==> QuaMotLan(ls, kys, n, tc))
  {
    var rows := DongTrong(ls, kys, n);
    var c, p, d, q := TinChiTheo(rows, tc), DiemTheo(rows, tc), TinChiChay(ls, kys, n, tc), DiemChay(ls, kys, n, tc);
    RunningTotals(ls, kys, n, tc);
    DongTrongTheoBang(ls, kys, n, tc);
    TongTheoMon(rows, tc);
    assert c.Keys == tc.Keys && p.Keys == tc.Keys && d.Keys == tc.Keys && q.Keys == tc.Keys;
    forall m: nat | m in tc
      ensures c[m] <= d[m] && p[m] <= q[m]
      ensures c[m] == d[m] <==> tc[m] == 0 || SoKyDat(ls, kys, n, m) <= 1
      ensures p[m] == q[m] <==> tc[m] == 0 || SoKyDat(ls, kys, n, m) <= 1
    {
      MotMonTrung(ls, kys, n, tc, m);
    }
    BangTongBang(c, d);
    BangTongBang(p, q);
  }

  // ---------------------------------------------------------------- the repeated passes

  /** Credits times the passes beyond the first, for k passes of a course of c credits. */
  function TinLap(k: nat, c: nat): nat { if k >= 1 then (k - 1) * c else 0 }

  /** The points d of k passes beyond those of the best one, at grade z. */
  function DiemVuot(z: nat, k: nat, d: nat, c: nat): nat {
    if k >= 1 && d >= Thang4(z) * c then d - Thang4(z) * c else 0
  }

  ghost function TinChiLap(ls: seq<LuotHoc>, kys: seq<nat>, n: nat, tc: map<nat, nat>): map<nat, nat>
    requires n <= |kys|
  {
    map m | m in tc :: TinLap(SoKyDat(ls, kys, n, m), tc[m])
  }

  ghost function DiemLap(ls: seq<LuotHoc>, kys: seq<nat>, n: nat, tc: map<nat, nat>): map<nat, nat>
    requires n <= |kys|
  {
    map m | m in tc ::
      DiemVuot(Z(DongTrong(ls, kys, n), m), SoKyDat(ls, kys, n, m), DiemMon(ls, kys, n, m, tc[m]), tc[m])
  }

  lemma TachMon(z: nat, k: nat, d: nat, c: nat)
    requires KhopMon(z, k, d, c)
    ensures k * c == (if z >= DIEM_DAT then c else 0) + TinLap(k, c)
    ensures d == (if z >= DIEM_DAT then Thang4(z) * c else 0) + DiemVuot(z, k, d, c)
  {
    if k >= 1 { NhanThem(k - 1, c); }
  }

  lemma TachMotMon(ls: seq<LuotHoc>, kys: seq<nat>, n: nat, tc: map<nat, nat>, m: nat)
    requires n <= |kys| && m in tc
    ensures var rows := DongTrong(ls, kys, n);
            && TinChiChay(ls, kys, n, tc)[m] == TinChiTheo(rows, tc)[m] + TinChiLap(ls, kys, n, tc)[m]
            && DiemChay(ls, kys, n, tc)[m] == DiemTheo(rows, tc)[m] + DiemLap(ls, kys, n, tc)[m]
  {
    DatTrongNghia(ls, kys, n, m, tc[m]);
    TachMon(Z(DongTrong(ls, kys, n), m), SoKyDat(ls, kys, n, m), DiemMon(ls, kys, n, m, tc[m]), tc[m]);
  }

  /** Running credits and points are those of the cached rule and those of the repeated passes. */
  lemma RunningSplit(ls: seq<LuotHoc>, kys: seq<nat>, n: nat, tc: map<nat, nat>)
    requires n <= |kys| && LuotTheoBang(ls, tc)
    ensures var rows := DongTrong(ls, kys, n);
            && TinChiSau(ls, kys, n) == Total(TinChiDat(rows)) + Total(TinChiLap(ls, kys, n, tc))
            && DiemSau(ls, kys, n) == Total(DiemDat(rows)) + Total(DiemLap(ls, kys, n, tc))
  {
    var rows := DongTrong(ls, kys, n);
    var c, p, d, q := TinChiTheo(rows, tc), DiemTheo(rows, tc), TinChiChay(ls, kys, n, tc), DiemChay(ls, kys, n, tc);
    var cl, pl := TinChiLap(ls, kys, n, tc), DiemLap(ls, kys, n, tc);
    RunningTotals(ls, kys, n, tc);
    DongTrongTheoBang(ls, kys, n, tc);
    TongTheoMon(rows, tc);
    forall m: nat | m in tc ensures d[m] == c[m] + cl[m] && q[m] == p[m] + pl[m] { TachMotMon(ls, kys, n, tc, m); }
    assert c.Keys == tc.Keys && d.Keys == tc.Keys && cl.Keys == tc.Keys;
    assert p.Keys == tc.Keys && q.Keys == tc.Keys && pl.Keys == tc.Keys;
    TotalPlus(c, cl, d);
    TotalPlus(p, pl, q);
  }
}
