/** The rows of the training set: which attempts the GPA put before a term depends on, and when it is the
    GPA of the cached rule. */
module HocVuRiskHang {
  import opened Collections
  import opened TichLuyDiem
  import opened HocVuRisk
  import opened HocVuRiskKy
  import opened HocVuRiskNghia

  // ---------------------------------------------------------------- the rows of one term

  lemma {:induction false} HangKyGpa(all: seq<LuotHoc>, ls: seq<LuotHoc>, kys: seq<nat>, k: nat, gpa: real, n: nat)
    requires k < |kys| && n <= |CuaKy(ls, kys[k])|
    ensures |HangKy(all, ls, kys, k, gpa, n)| == n && CungGpa(HangKy(all, ls, kys, k, gpa, n), gpa)
  {
    if n > 0 {
      var truoc := HangKy(all, ls, kys, k, gpa, n - 1);
      HangKyGpa(all, ls, kys, k, gpa, n - 1);
      var h := HangKyThem(all, ls, kys, k, gpa, n);
      ThemCungGpa(truoc, h, gpa);
    }
  }

  ghost predicate CungGpa(hang: seq<RiskInput>, gpa: real) {
    forall p :: 0 <= p < |hang| ==> hang[p].gpaTruocKy == gpa
  }

  lemma ThemCungGpa(hang: seq<RiskInput>, h: RiskInput, gpa: real)
    requires CungGpa(hang, gpa) && h.gpaTruocKy == gpa
    ensures CungGpa(hang + [h], gpa)
  {
  }

  lemma HangKyThem(all: seq<LuotHoc>, ls: seq<LuotHoc>, kys: seq<nat>, k: nat, gpa: real, n: nat)
      returns (h: RiskInput)
    requires k < |kys| && 0 < n <= |CuaKy(ls, kys[k])|
    ensures HangKy(all, ls, kys, k, gpa, n) == HangKy(all, ls, kys, k, gpa, n - 1) + [h] && h.gpaTruocKy == gpa
  {
    var ky := CuaKy(ls, kys[k]);
    h := HangCua(all, ky, gpa, SoLuotTrong(ls, kys, k, ky[n - 1].maMonHoc), n - 1);
  }

  /** Where the rows of term i stand among the student's rows. */
  ghost predicate LaHangCuaKy(all: seq<LuotHoc>, ls: seq<LuotHoc>, i: nat, p: nat) {
    i < |CacKy(ls)| && |HangSv(all, ls, CacKy(ls), i)| <= p < |HangSv(all, ls, CacKy(ls), i + 1)|
  }

  lemma HangSvDau(all: seq<LuotHoc>, ls: seq<LuotHoc>, kys: seq<nat>, i: nat)
    requires i <= |kys|
    ensures HangSv(all, ls, kys, i) <= HangSv(all, ls, kys, |kys|)
  {
    JoinedPrefix(HangCacKy(all, ls, kys), i, |kys|);
  }

  /** The later part of a concatenation. */
  lemma PhanSau<T>(a: seq<T>, b: seq<T>, p: nat)
    requires |a| <= p < |a + b|
    ensures p - |a| < |b| && (a + b)[p] == b[p - |a|]
  {
  }

  /** All rows of term i carry the GPA before term i. */
  lemma HangCuaKyGpa(all: seq<LuotHoc>, ls: seq<LuotHoc>, i: nat, p: nat)
    requires LaHangCuaKy(all, ls, i, p)
    ensures var hang := HangSv(all, ls, CacKy(ls), |CacKy(ls)|);
            p < |hang| && hang[p].gpaTruocKy == GpaTruoc(ls, CacKy(ls), i)
  {
    var kys := CacKy(ls);
    HangSvDau(all, ls, kys, i + 1);
    HangSvBuoc(all, ls, kys, i);
    PhanSau(HangSv(all, ls, kys, i), HangCaKy(all, ls, kys, i), p);
    HangKyGpa(all, ls, kys, i, GpaTruoc(ls, kys, i), |CuaKy(ls, kys[i])|);
  }

  // ---------------------------------------------------------------- the attempts before

  function LocTruoc(ls: seq<LuotHoc>, con: seq<LuotHoc>, hk: nat, ngay: int): seq<LuotHoc> {
    if con == [] then []
    else (if DungTruoc(ls, con[0], hk, ngay) then [con[0]] else []) + LocTruoc(ls, con[1..], hk, ngay)
  }

  /** The attempts in terms that start before the date, or on it and appear before term hk does. */
  function TruocKy(ls: seq<LuotHoc>, hk: nat, ngay: int): seq<LuotHoc> { LocTruoc(ls, ls, hk, ngay) }

  lemma {:induction false} LocTruocNghia(ls: seq<LuotHoc>, con: seq<LuotHoc>, hk: nat, ngay: int)
    ensures forall l :: l in LocTruoc(ls, con, hk, ngay) <==> l in con && DungTruoc(ls, l, hk, ngay)
  {
    if con != [] {
      var x, sau := con[0], con[1..];
      assert forall l :: l in con <==> l == x || l in sau;
      LocTruocNghia(ls, sau, hk, ngay);
    }
  }

  lemma {:induction false} CuaKyLocTruoc(ls: seq<LuotHoc>, con: seq<LuotHoc>, hk: nat, ngay: int, k: nat)
    requires forall l :: l in con && l.maHocKy == k ==> DungTruoc(ls, l, hk, ngay)
    ensures CuaKy(LocTruoc(ls, con, hk, ngay), k) == CuaKy(con, k)
  {
    if con != [] {
      var x, sau := con[0], con[1..];
      assert x in con && forall l :: l in sau ==> l in con;
      CuaKyLocTruoc(ls, sau, hk, ngay, k);
      var t := LocTruoc(ls, sau, hk, ngay);
      if DungTruoc(ls, x, hk, ngay) {
        assert LocTruoc(ls, con, hk, ngay) == [x] + t && ([x] + t)[1..] == t;
      } else {
        assert LocTruoc(ls, con, hk, ngay) == t;
      }
    }
  }

  /** The terms of these attempts are those listed before, and hold the same attempts. */
  lemma KyTruocNghia(ls: seq<LuotHoc>, i: nat, ngay: int, k: nat)
    requires MotNgayMoiKy(ls) && KyBatDau(ls, i, ngay)
    ensures var cu := TruocKy(ls, CacKy(ls)[i], ngay);
            (k in CacKy(ls)[..i] <==> CoKy(cu, k)) && (k in CacKy(ls)[..i] ==> CuaKy(cu, k) == CuaKy(ls, k))
  {
    var kys, hk := CacKy(ls), CacKy(ls)[i];
    var cu := TruocKy(ls, hk, ngay);
    LocTruocNghia(ls, ls, hk, ngay);
    if CoKy(cu, k) {
      var l :| l in cu && l.maHocKy == k;
      KyTruocExact(ls, i, ngay, l);
    }
    if k in kys[..i] {
      forall l | l in ls && l.maHocKy == k ensures DungTruoc(ls, l, hk, ngay) { KyTruocExact(ls, i, ngay, l); }
      CuaKyLocTruoc(ls, ls, hk, ngay, k);
      var l := LuotCuaKy(ls, i, k);
      assert l in cu;
    }
  }

  lemma LuotCuaKy(ls: seq<LuotHoc>, i: nat, k: nat) returns (l: LuotHoc)
    requires i <= |CacKy(ls)| && k in CacKy(ls)[..i]
    ensures l in ls && l.maHocKy == k
  {
    var s := StableDescending(CapKy(ls));
    var q :| 0 <= q < i && CacKy(ls)[..i][q] == k;
    MaKyNghia(s);
    TrongSapXep(ls, s[q]);
    l :| l in ls && s[q] == (l.maHocKy, -l.ngayBatDauKy);
  }

  // ---------------------------------------------------------------- sums over terms in any order

  ghost function TapKy(kys: seq<nat>, n: nat): set<nat>
    requires n <= |kys|
  {
    set j | 0 <= j < n :: kys[j]
  }

  ghost function TinChiTungKy(ls: seq<LuotHoc>, ks: set<nat>): map<nat, nat> { map k | k in ks :: TinChiDatKy(ls, k) }

  ghost function DiemTungKy(ls: seq<LuotHoc>, ks: set<nat>): map<nat, nat> { map k | k in ks :: DiemDatKy(ls, k) }

  lemma TapKyThem(kys: seq<nat>, n: nat)
    requires 0 < n <= |kys| && Distinct(kys)
    ensures kys[n - 1] !in TapKy(kys, n - 1)
    ensures forall x: nat :: x in TapKy(kys, n) <==> x == kys[n - 1] || x in TapKy(kys, n - 1)
  {
    forall x: nat ensures x in TapKy(kys, n) <==> x == kys[n - 1] || x in TapKy(kys, n - 1) {
      if x in TapKy(kys, n) {
        var j :| 0 <= j < n && kys[j] == x;
        assert j < n - 1 ==> kys[j] in TapKy(kys, n - 1);
      }
    }
  }

  lemma {:induction false} TongTinChiTapKy(ls: seq<LuotHoc>, kys: seq<nat>, n: nat)
    requires n <= |kys| && Distinct(kys)
    ensures TinChiSau(ls, kys, n) == Total(TinChiTungKy(ls, TapKy(kys, n)))
  {
    if n == 0 {
      TotalZero(TinChiTungKy(ls, TapKy(kys, 0)));
    } else {
      TongTinChiTapKy(ls, kys, n - 1);
      TapKyThem(kys, n);
      TotalWith(TinChiTungKy(ls, TapKy(kys, n - 1)), TinChiTungKy(ls, TapKy(kys, n)), kys[n - 1]);
    }
  }

  lemma {:induction false} TongDiemTapKy(ls: seq<LuotHoc>, kys: seq<nat>, n: nat)
    requires n <= |kys| && Distinct(kys)
    ensures DiemSau(ls, kys, n) == Total(DiemTungKy(ls, TapKy(kys, n)))
  {
    if n == 0 {
      TotalZero(DiemTungKy(ls, TapKy(kys, 0)));
    } else {
      TongDiemTapKy(ls, kys, n - 1);
      TapKyThem(kys, n);
      TotalWith(DiemTungKy(ls, TapKy(kys, n - 1)), DiemTungKy(ls, TapKy(kys, n)), kys[n - 1]);
    }
  }

  lemma CungDatKy(ls: seq<LuotHoc>, khac: seq<LuotHoc>, k: nat)
    requires CuaKy(ls, k) == CuaKy(khac, k)
    ensures TinChiDatKy(ls, k) == TinChiDatKy(khac, k) && DiemDatKy(ls, k) == DiemDatKy(khac, k)
  {
  }

  lemma CungTungKy(ls: seq<LuotHoc>, khac: seq<LuotHoc>, ks: set<nat>)
    requires forall k: nat :: k in ks ==> CuaKy(ls, k) == CuaKy(khac, k)
    ensures TinChiTungKy(ls, ks) == TinChiTungKy(khac, ks) && DiemTungKy(ls, ks) == DiemTungKy(khac, ks)
  {
    forall k: nat | k in ks
      ensures TinChiDatKy(ls, k) == TinChiDatKy(khac, k) && DiemDatKy(ls, k) == DiemDatKy(khac, k)
    {
      CungDatKy(ls, khac, k);
    }
  }

  /** The same terms with the same attempts, in whatever order: the same totals. */
  lemma CungKyCungTong(ls: seq<LuotHoc>, kys: seq<nat>, n: nat, khac: seq<LuotHoc>, kyKhac: seq<nat>, m: nat)
    requires n <= |kys| && m <= |kyKhac| && Distinct(kys) && Distinct(kyKhac)
    requires TapKy(kys, n) == TapKy(kyKhac, m)
    requires forall k: nat :: k in TapKy(kys, n) ==> CuaKy(ls, k) == CuaKy(khac, k)
    ensures TinChiSau(ls, kys, n) == TinChiSau(khac, kyKhac, m) && DiemSau(ls, kys, n) == DiemSau(khac, kyKhac, m)
  {
    CungTungKy(ls, khac, TapKy(kys, n));
    TongTinChiTapKy(ls, kys, n);
    TongDiemTapKy(ls, kys, n);
    TongTinChiTapKy(khac, kyKhac, m);
    TongDiemTapKy(khac, kyKhac, m);
  }

  lemma TapKyDau(kys: seq<nat>, n: nat, k: nat)
    requires n <= |kys|
    ensures k in TapKy(kys, n) <==> k in kys[..n]
  {
    if k in TapKy(kys, n) {
      var j :| 0 <= j < n && kys[j] == k;
      assert kys[..n][j] == k;
    }
    if k in kys[..n] {
      var j :| 0 <= j < n && kys[..n][j] == k;
      assert kys[j] == k;
    }
  }

  lemma CungTruocCungTap(ls: seq<LuotHoc>, i: nat, ngay: int, khac: seq<LuotHoc>, j: nat, ngayKhac: int, k: nat)
    requires MotNgayMoiKy(ls) && KyBatDau(ls, i, ngay) && MotNgayMoiKy(khac) && KyBatDau(khac, j, ngayKhac)
    requires TruocKy(ls, CacKy(ls)[i], ngay) == TruocKy(khac, CacKy(khac)[j], ngayKhac)
    ensures k in TapKy(CacKy(ls), i) <==> k in TapKy(CacKy(khac), j)
    ensures k in TapKy(CacKy(ls), i) ==> CuaKy(ls, k) == CuaKy(khac, k)
  {
    TapKyDau(CacKy(ls), i, k);
    TapKyDau(CacKy(khac), j, k);
    KyTruocNghia(ls, i, ngay, k);
    KyTruocNghia(khac, j, ngayKhac, k);
  }

  lemma CungTruocCungGpa(ls: seq<LuotHoc>, i: nat, ngay: int, khac: seq<LuotHoc>, j: nat, ngayKhac: int)
    requires MotNgayMoiKy(ls) && KyBatDau(ls, i, ngay) && MotNgayMoiKy(khac) && KyBatDau(khac, j, ngayKhac)
    requires TruocKy(ls, CacKy(ls)[i], ngay) == TruocKy(khac, CacKy(khac)[j], ngayKhac)
    ensures GpaTruoc(ls, CacKy(ls), i) == GpaTruoc(khac, CacKy(khac), j)
  {
    CacKyRieng(ls);
    CacKyRieng(khac);
    forall k: nat
      ensures k in TapKy(CacKy(ls), i) <==> k in TapKy(CacKy(khac), j)
      ensures k in TapKy(CacKy(ls), i) ==> CuaKy(ls, k) == CuaKy(khac, k)
    {
      CungTruocCungTap(ls, i, ngay, khac, j, ngayKhac, k);
    }
    assert TapKy(CacKy(ls), i) == TapKy(CacKy(khac), j);
    CungKyCungTong(ls, CacKy(ls), i, khac, CacKy(khac), j);
  }

  /** Two histories that agree on the attempts in terms before one of theirs, those that start earlier and
      those that start on the same day but appear first, whatever they hold later: the rows of the two
      terms all carry one and the same prior GPA. */
  lemma PriorGpaUsesEarlierTerms(
      all: seq<LuotHoc>, ls: seq<LuotHoc>, i: nat, p: nat, ngay: int,
      allKhac: seq<LuotHoc>, khac: seq<LuotHoc>, j: nat, q: nat, ngayKhac: int)
    requires MotNgayMoiKy(ls) && LaHangCuaKy(all, ls, i, p) && KyBatDau(ls, i, ngay)
    requires MotNgayMoiKy(khac) && LaHangCuaKy(allKhac, khac, j, q) && KyBatDau(khac, j, ngayKhac)
    requires TruocKy(ls, CacKy(ls)[i], ngay) == TruocKy(khac, CacKy(khac)[j], ngayKhac)
    ensures var r, s := HangSv(all, ls, CacKy(ls), |CacKy(ls)|), HangSv(allKhac, khac, CacKy(khac), |CacKy(khac)|);
            p < |r| && q < |s| && r[p].gpaTruocKy == s[q].gpaTruocKy
  {
    HangCuaKyGpa(all, ls, i, p);
    HangCuaKyGpa(allKhac, khac, j, q);
    CungTruocCungGpa(ls, i, ngay, khac, j, ngayKhac);
  }

  /** While no other term starts on the day, they are the attempts in terms that start earlier. */
  lemma NoOtherTermThatDay(ls: seq<LuotHoc>, i: nat, ngay: int, l: LuotHoc)
    requires MotNgayMoiKy(ls) && KyBatDau(ls, i, ngay)
    requires forall x :: x in ls && x.ngayBatDauKy == ngay ==> x.maHocKy == CacKy(ls)[i]
    ensures l in TruocKy(ls, CacKy(ls)[i], ngay) <==> l in ls && l.ngayBatDauKy < ngay
  {
    LocTruocNghia(ls, ls, CacKy(ls)[i], ngay);
  }

  // ---------------------------------------------------------------- against the cached rule

  lemma HaiTrungBinh(p: nat, c: nat, p': nat, c': nat)
    requires c > 0 && c' > 0
    ensures Gpa(p, c) == Gpa(p', c') <==> p * c' == p' * c
  {
    var x, y, a, b := p as real / 10.0, p' as real / 10.0, c as real, c' as real;
    PhanSoBang(x, a, y, b);
    assert x * b == y * a <==> p as real * b == p' as real * a;
    assert (p * c') as real == p as real * b && (p' * c) as real == p' as real * a;
  }

  lemma PhanSoBang(x: real, a: real, y: real, b: real)
    requires a > 0.0 && b > 0.0
    ensures x / a == y / b <==> x * b == y * a
  {
    assert x / a * (a * b) == x * b;
    assert y / b * (a * b) == y * a;
    if x / a == y / b { assert x / a * (a * b) == y / b * (a * b); }
    if x * b == y * a {
      assert x / a == x * b / (a * b) && y / b == y * a / (a * b);
    }
  }

  /** Adding points p' and credits c' keeps the mean exactly when no credits are added or they have it. */
  lemma ThemTrungBinh(p: nat, c: nat, p': nat, c': nat, tongP: nat, tongC: nat)
    requires (c == 0 ==> c' == 0) && (c' == 0 ==> p' == 0) && tongP == p + p' && tongC == c + c'
    ensures Gpa(tongP, tongC) == Gpa(p, c) <==> c' == 0 || Gpa(p', c') == Gpa(p, c)
  {
    if c' > 0 {
      HaiTrungBinh(tongP, tongC, p, c);
      HaiTrungBinh(p', c', p, c);
      assert (p + p') * c == p * c + p' * c && p * (c + c') == p * c + p * c';
    }
  }

  /** Without credits under the cached rule there are no passes. */
  lemma KhongTinChiMon(ls: seq<LuotHoc>, kys: seq<nat>, n: nat, tc: map<nat, nat>, m: nat)
    requires n <= |kys| && LuotTheoBang(ls, tc) && Total(TinChiDat(DongTrong(ls, kys, n))) == 0
    requires m in tc && tc[m] > 0
    ensures SoKyDat(ls, kys, n, m) == 0
  {
    var rows := DongTrong(ls, kys, n);
    DongTrongTheoBang(ls, kys, n, tc);
    TongTheoMon(rows, tc);
    TotalTakeOut(TinChiTheo(rows, tc), m);
    DatTrongNghia(ls, kys, n, m, tc[m]);
  }

  /** The unrounded mean the cached rule takes over the first n terms. */
  ghost function GpaTheoLuat(ls: seq<LuotHoc>, kys: seq<nat>, n: nat): real
    requires n <= |kys|
  {
    var rows := DongTrong(ls, kys, n);
    Gpa(Total(DiemDat(rows)), Total(TinChiDat(rows)))
  }

  /** A repeated pass has credits or no points. */
  lemma LapKhongTinChi(ls: seq<LuotHoc>, kys: seq<nat>, n: nat, tc: map<nat, nat>)
    requires n <= |kys| && Total(TinChiLap(ls, kys, n, tc)) == 0
    ensures Total(DiemLap(ls, kys, n, tc)) == 0
  {
    var c, p := TinChiLap(ls, kys, n, tc), DiemLap(ls, kys, n, tc);
    forall m: nat | m in p ensures p[m] == 0 {
      assert m in c;
      TotalTakeOut(c, m);
      DatTrongNghia(ls, kys, n, m, tc[m]);
      LapMon(Z(DongTrong(ls, kys, n), m), SoKyDat(ls, kys, n, m), DiemMon(ls, kys, n, m, tc[m]), tc[m]);
    }
    TotalZero(p);
  }

  lemma LapMon(z: nat, k: nat, d: nat, c: nat)
    requires KhopMon(z, k, d, c) && TinLap(k, c) == 0
    ensures DiemVuot(z, k, d, c) == 0
  {
    if k >= 2 && c > 0 { NhanTang(1, k - 1, c); }
  }

  lemma KhongTinChiKhongLap(ls: seq<LuotHoc>, kys: seq<nat>, n: nat, tc: map<nat, nat>)
    requires n <= |kys| && LuotTheoBang(ls, tc) && Total(TinChiDat(DongTrong(ls, kys, n))) == 0
    ensures Total(TinChiLap(ls, kys, n, tc)) == 0
  {
    var c := TinChiLap(ls, kys, n, tc);
    forall m: nat | m in c ensures c[m] == 0 {
      if tc[m] > 0 { KhongTinChiMon(ls, kys, n, tc, m); }
    }
    TotalZero(c);
  }

  /** The mean over the repeated passes of the first n terms. */
  ghost function GpaLap(ls: seq<LuotHoc>, kys: seq<nat>, n: nat, tc: map<nat, nat>): real
    requires n <= |kys|
  {
    Gpa(Total(DiemLap(ls, kys, n, tc)), Total(TinChiLap(ls, kys, n, tc)))
  }

  lemma TrungBinhExact(ls: seq<LuotHoc>, kys: seq<nat>, n: nat, tc: map<nat, nat>)
    requires n <= |kys| && LuotTheoBang(ls, tc)
    ensures GpaTruoc(ls, kys, n) == GpaTheoLuat(ls, kys, n) <==>
            Total(TinChiLap(ls, kys, n, tc)) == 0 || GpaLap(ls, kys, n, tc) == GpaTheoLuat(ls, kys, n)
  {
    var rows := DongTrong(ls, kys, n);
    var p, c := Total(DiemDat(rows)), Total(TinChiDat(rows));
    var p', c' := Total(DiemLap(ls, kys, n, tc)), Total(TinChiLap(ls, kys, n, tc));
    RunningSplit(ls, kys, n, tc);
    if c == 0 { KhongTinChiKhongLap(ls, kys, n, tc); }
    if c' == 0 { LapKhongTinChi(ls, kys, n, tc); }
    ThemTrungBinh(p, c, p', c', DiemSau(ls, kys, n), TinChiSau(ls, kys, n));
  }

  /** The prior GPA of a row is the unrounded mean the cached rule takes over the terms before exactly when
      no course with credits was passed again in them, or the mean over the repeated passes, which count
      beyond a course's first in credits and beyond its best in points, is the same. */
  lemma RowGpaIsBatch(all: seq<LuotHoc>, ls: seq<LuotHoc>, i: nat, p: nat, tc: map<nat, nat>)
    requires LaHangCuaKy(all, ls, i, p) && LuotTheoBang(ls, tc)
    ensures var hang := HangSv(all, ls, CacKy(ls), |CacKy(ls)|);
            p < |hang| &&
            (hang[p].gpaTruocKy == GpaTheoLuat(ls, CacKy(ls), i) <==>
             Total(TinChiLap(ls, CacKy(ls), i, tc)) == 0 ||
             GpaLap(ls, CacKy(ls), i, tc) == GpaTheoLuat(ls, CacKy(ls), i))
  {
    HangCuaKyGpa(all, ls, i, p);
    TrungBinhExact(ls, CacKy(ls), i, tc);
  }

  /** So it is while every course with credits was passed in at most one of those terms. */
  lemma RowGpaWithoutRepeats(all: seq<LuotHoc>, ls: seq<LuotHoc>, i: nat, p: nat, tc: map<nat, nat>)
    requires LaHangCuaKy(all, ls, i, p) && LuotTheoBang(ls, tc) && QuaMotLan(ls, CacKy(ls), i, tc)
    ensures var hang := HangSv(all, ls, CacKy(ls), |CacKy(ls)|);
            p < |hang| && hang[p].gpaTruocKy == GpaTheoLuat(ls, CacKy(ls), i)
  {
    HangCuaKyGpa(all, ls, i, p);
    RunningAgainstBatch(ls, CacKy(ls), i, tc);
  }
}
