/** The training set as a whole: which attempt each row is about, in what order the rows come, and what
    each row says of its attempt. */
module HocVuRiskDong {
  import opened Collections
  import opened HocVuRisk
  import opened HocVuRiskKy

  // ---------------------------------------------------------------- what the rows should say

  /** Attempts q and p are one student's, and q's term comes before p's: it starts earlier, or on the same day
      and appears first among the student's attempts. */
  ghost predicate KySom(all: seq<LuotHoc>, q: nat, p: nat)
    requires q < |all| && p < |all|
  {
    && all[q].maSinhVien == all[p].maSinhVien
    && (all[q].ngayBatDauKy < all[p].ngayBatDauKy ||
        (all[q].ngayBatDauKy == all[p].ngayBatDauKy && exists x: nat :: DauTien(all, x, q, p)))
  }

  /** Position x shows the term of q, of the same student, before any position shows the term of p. */
  ghost predicate DauTien(all: seq<LuotHoc>, x: nat, q: nat, p: nat)
    requires q < |all| && p < |all|
  {
    && x < |all| && all[x].maSinhVien == all[q].maSinhVien && all[x].maHocKy == all[q].maHocKy
    && forall y :: 0 <= y <= x && all[y].maSinhVien == all[q].maSinhVien ==> all[y].maHocKy != all[p].maHocKy
  }

  ghost predicate CungKy(all: seq<LuotHoc>, q: nat, p: nat)
    requires q < |all| && p < |all|
  {
    all[q].maSinhVien == all[p].maSinhVien && all[q].maHocKy == all[p].maHocKy
  }

  /** Attempt q was made in an earlier term than p, or is listed before it in the same one. */
  ghost predicate HocTruoc(all: seq<LuotHoc>, q: nat, p: nat)
    requires q < |all| && p < |all|
  {
    KySom(all, q, p) || (CungKy(all, q, p) && q < p)
  }

  /** Position x shows student a before any position shows student b. */
  ghost predicate SvHien(all: seq<LuotHoc>, x: nat, a: nat, b: nat) {
    x < |all| && all[x].maSinhVien == a && forall y :: 0 <= y <= x ==> all[y].maSinhVien != b
  }

  /** The student of q appears before the student of p. */
  ghost predicate SvTruoc(all: seq<LuotHoc>, q: nat, p: nat)
    requires q < |all| && p < |all|
  {
    exists x: nat :: SvHien(all, x, all[q].maSinhVien, all[p].maSinhVien)
  }

  /** The row of q comes before the row of p. */
  ghost predicate DungTren(all: seq<LuotHoc>, q: nat, p: nat)
    requires q < |all| && p < |all|
  {
    SvTruoc(all, q, p) || HocTruoc(all, q, p)
  }

  ghost function LuotTruoc(all: seq<LuotHoc>, p: nat): set<nat>
    requires p < |all|
  {
    set q: nat | q < |all| && HocTruoc(all, q, p) && all[q].maMonHoc == all[p].maMonHoc
  }

  ghost function LuotMon(all: seq<LuotHoc>, mon: nat): set<nat> {
    set q: nat | q < |all| && all[q].maMonHoc == mon
  }

  ghost function LuotDat(all: seq<LuotHoc>, mon: nat): set<nat> {
    set q: nat | q < |all| && all[q].maMonHoc == mon && all[q].diemZ >= 400
  }

  /** The share of passes among all attempts at the course. */
  ghost predicate LaTyLeDat(all: seq<LuotHoc>, mon: nat, r: real) {
    r * |LuotMon(all, mon)| as real == |LuotDat(all, mon)| as real
  }

  ghost function TinChiCungKy(all: seq<LuotHoc>, p: nat): map<nat, nat>
    requires p < |all|
  {
    map q: nat | q < |all| && CungKy(all, q, p) :: all[q].soTinChi
  }

  /** What the row of attempt p says: the credits and the kind of its course; which attempt at the course it
      is, counting the earlier ones; the share of passes among everyone's attempts at the course; the credits
      the student takes in the term; and whether the grade is below 4.00. */
  ghost predicate HangDung(all: seq<LuotHoc>, p: nat, h: RiskInput)
    requires p < |all|
  {
    var mon := all[p].maMonHoc;
    && h.soTinChi == all[p].soTinChi && h.laTuChon == all[p].tuChon
    && h.lanHocThu == 1 + |LuotTruoc(all, p)|
    && LaTyLeDat(all, mon, h.tyLeDat)
    && h.tongTinChiKy == Total(TinChiCungKy(all, p))
    && (h.truot <==> all[p].diemZ < 400)
  }

  /** Row r is about attempt vi[r]. Every attempt has one row; rows of one student stand together, students in
      the order in which they first appear, their terms in order of time, attempts of a term as listed. */
  ghost predicate LaTap(all: seq<LuotHoc>, hang: seq<RiskInput>, vi: seq<nat>) {
    && |vi| == |hang| && Distinct(vi)
    && (forall r :: 0 <= r < |vi| ==> vi[r] < |all| && HangDung(all, vi[r], hang[r]))
    && (forall q: nat :: q < |all| ==> q in vi)
    && (forall r, s :: 0 <= r < s < |vi| ==> DungTren(all, vi[r], vi[s]))
  }

  // ---------------------------------------------------------------- positions of attempts

  function CuaSvKy(sv: nat, hk: nat): LuotHoc -> bool { (l: LuotHoc) => l.maSinhVien == sv && l.maHocKy == hk }
  function CuaMotSv(sv: nat): LuotHoc -> bool { (l: LuotHoc) => l.maSinhVien == sv }

  /** Where the attempts of a student in a term stand. */
  function ViTri(all: seq<LuotHoc>, sv: nat, hk: nat): seq<nat> { Positions(all, CuaSvKy(sv, hk)) }

  lemma {:induction false} CuaSvNoi(a: seq<LuotHoc>, b: seq<LuotHoc>, sv: nat)
    ensures CuaSv(a + b, sv) == CuaSv(a, sv) + CuaSv(b, sv)
  {
    if a == [] {
      assert a + b == b && [] + CuaSv(b, sv) == CuaSv(b, sv);
    } else {
      var con, sau := a[1..], a + b;
      assert sau[1..] == con + b;
      CuaSvNoi(con, b, sv);
      CuaSvDau(a, sv);
      CuaSvDau(sau, sv);
      AppendAssociative([a[0]], CuaSv(con, sv), CuaSv(b, sv));
    }
  }

  lemma CuaSvDau(ls: seq<LuotHoc>, sv: nat)
    requires ls != []
    ensures CuaSv(ls, sv) == if ls[0].maSinhVien == sv then [ls[0]] + CuaSv(ls[1..], sv) else CuaSv(ls[1..], sv)
  {
    assert [] + CuaSv(ls[1..], sv) == CuaSv(ls[1..], sv);
  }

  lemma {:induction false} CuaKyNoi(a: seq<LuotHoc>, b: seq<LuotHoc>, hk: nat)
    ensures CuaKy(a + b, hk) == CuaKy(a, hk) + CuaKy(b, hk)
  {
    if a == [] {
      assert a + b == b && [] + CuaKy(b, hk) == CuaKy(b, hk);
    } else {
      var con, sau := a[1..], a + b;
      assert sau[1..] == con + b;
      CuaKyNoi(con, b, hk);
      CuaKyDau(a, hk);
      CuaKyDau(sau, hk);
      AppendAssociative([a[0]], CuaKy(con, hk), CuaKy(b, hk));
    }
  }

  lemma CuaKyDau(ls: seq<LuotHoc>, hk: nat)
    requires ls != []
    ensures CuaKy(ls, hk) == if ls[0].maHocKy == hk then [ls[0]] + CuaKy(ls[1..], hk) else CuaKy(ls[1..], hk)
  {
    assert [] + CuaKy(ls[1..], hk) == CuaKy(ls[1..], hk);
  }

  lemma {:induction false} CuaSvViTri(all: seq<LuotHoc>, sv: nat)
    ensures TakenAt(CuaSv(all, sv), all, Positions(all, CuaMotSv(sv)))
  {
    if all != [] {
      var truoc, l := all[..|all| - 1], all[|all| - 1];
      assert all == truoc + [l];
      CuaSvViTri(truoc, sv);
      CuaSvNoi(truoc, [l], sv);
      CuaSvDau([l], sv);
      assert CuaSv(truoc, sv) + [] == CuaSv(truoc, sv);
      TakenAtAppend(CuaSv(truoc, sv), truoc, l, CuaMotSv(sv));
    }
  }

  lemma CuaKyMot(l: LuotHoc, sv: nat, hk: nat)
    ensures CuaKy(CuaSv([l], sv), hk) == if CuaSvKy(sv, hk)(l) then [l] else []
  {
    CuaSvDau([l], sv);
    assert CuaSv([], sv) == [] && [l][1..] == [] && [l] + [] == [l];
    CuaKyDau([l], hk);
  }

  lemma {:induction false} CuaKyViTri(all: seq<LuotHoc>, sv: nat, hk: nat)
    ensures TakenAt(CuaKy(CuaSv(all, sv), hk), all, ViTri(all, sv, hk))
  {
    if all != [] {
      var truoc, l := all[..|all| - 1], all[|all| - 1];
      var con := CuaKy(CuaSv(truoc, sv), hk);
      assert all == truoc + [l];
      CuaKyViTri(truoc, sv, hk);
      CuaSvNoi(truoc, [l], sv);
      CuaKyNoi(CuaSv(truoc, sv), CuaSv([l], sv), hk);
      CuaKyMot(l, sv, hk);
      assert con + [] == con;
      TakenAtAppend(con, truoc, l, CuaSvKy(sv, hk));
    }
  }

  // ---------------------------------------------------------------- counts

  lemma {:induction false} SoLuotTap(all: seq<LuotHoc>, n: nat, mon: nat, tap: set<nat>)
    requires n <= |all| && tap == set q: nat | q < n && all[q].maMonHoc == mon
    ensures SoLuot(all, n, mon) == |tap|
  {
    if n > 0 {
      var truoc := set q: nat | q < n - 1 && all[q].maMonHoc == mon;
      SoLuotTap(all, n - 1, mon, truoc);
      var k: nat := n - 1;
      assert tap == if all[k].maMonHoc == mon then truoc + {k} else truoc;
    } else {
      assert tap == {};
    }
  }

  lemma {:induction false} SoDatTap(all: seq<LuotHoc>, n: nat, mon: nat, tap: set<nat>)
    requires n <= |all| && tap == set q: nat | q < n && all[q].maMonHoc == mon && all[q].diemZ >= 400
    ensures SoDat(all, n, mon) == |tap|
  {
    if n > 0 {
      var truoc := set q: nat | q < n - 1 && all[q].maMonHoc == mon && all[q].diemZ >= 400;
      SoDatTap(all, n - 1, mon, truoc);
      var k: nat := n - 1;
      assert tap == if all[k].maMonHoc == mon && all[k].diemZ >= 400 then truoc + {k} else truoc;
    } else {
      assert tap == {};
    }
  }

  lemma TyLeNghia(all: seq<LuotHoc>, p: nat)
    requires p < |all|
    ensures LaTyLeDat(all, all[p].maMonHoc, TyLeDat(all, all[p].maMonHoc))
  {
    var mon := all[p].maMonHoc;
    SoLuotTap(all, |all|, mon, LuotMon(all, mon));
    SoDatTap(all, |all|, mon, LuotDat(all, mon));
    assert p in LuotMon(all, mon);
  }

  /** The attempts at a course among those at the given positions. */
  ghost function MonTai(all: seq<LuotHoc>, vi: seq<nat>, mon: nat): set<nat> {
    set q: nat | q in vi && q < |all| && all[q].maMonHoc == mon
  }

  lemma MonTaiThem(all: seq<LuotHoc>, vi: seq<nat>, q: nat, mon: nat, sau: seq<nat>)
    requires q < |all| && q !in vi && sau == vi + [q]
    ensures |MonTai(all, sau, mon)| == |MonTai(all, vi, mon)| + if all[q].maMonHoc == mon then 1 else 0
  {
    assert forall x: nat :: x in sau <==> x in vi || x == q;
    assert MonTai(all, sau, mon) == MonTai(all, vi, mon) + if all[q].maMonHoc == mon then {q} else {};
  }

  lemma SoLuotBuoc(ky: seq<LuotHoc>, j: nat, mon: nat)
    requires 0 < j <= |ky|
    ensures SoLuot(ky, j, mon) == SoLuot(ky, j - 1, mon) + if ky[j - 1].maMonHoc == mon then 1 else 0
  {
  }

  lemma {:induction false} SoLuotViTri(all: seq<LuotHoc>, ky: seq<LuotHoc>, vi: seq<nat>, j: nat, mon: nat)
    requires TakenAt(ky, all, vi) && Ascending(vi) && j <= |ky|
    ensures SoLuot(ky, j, mon) == |MonTai(all, vi[..j], mon)|
  {
    if j > 0 {
      var truoc, sau, q := vi[..j - 1], vi[..j], vi[j - 1];
      SoLuotViTri(all, ky, vi, j - 1, mon);
      SoLuotBuoc(ky, j, mon);
      MonTaiThem(all, truoc, q, mon, sau);
    } else {
      assert MonTai(all, vi[..0], mon) == {};
    }
  }

  /** The student's attempts at a course in the first k terms. */
  ghost function TrongCacKy(all: seq<LuotHoc>, sv: nat, kys: seq<nat>, mon: nat): set<nat> {
    set q: nat | q < |all| && all[q].maSinhVien == sv && all[q].maHocKy in kys && all[q].maMonHoc == mon
  }

  lemma TrongKyThem(all: seq<LuotHoc>, sv: nat, kys: seq<nat>, hk: nat, mon: nat, sau: seq<nat>)
    requires hk !in kys && sau == kys + [hk]
    ensures |TrongCacKy(all, sv, sau, mon)| ==
            |TrongCacKy(all, sv, kys, mon)| + |MonTai(all, ViTri(all, sv, hk), mon)|
  {
    var truoc, them := TrongCacKy(all, sv, kys, mon), MonTai(all, ViTri(all, sv, hk), mon);
    assert forall k: nat :: k in sau <==> k in kys || k == hk;
    assert TrongCacKy(all, sv, sau, mon) == truoc + them;
    assert truoc !! them;
  }

  lemma SoLuotMotKy(all: seq<LuotHoc>, sv: nat, hk: nat, mon: nat)
    ensures var ky := CuaKy(CuaSv(all, sv), hk); SoLuot(ky, |ky|, mon) == |MonTai(all, ViTri(all, sv, hk), mon)|
  {
    var vi, ky := ViTri(all, sv, hk), CuaKy(CuaSv(all, sv), hk);
    CuaKyViTri(all, sv, hk);
    SoLuotViTri(all, ky, vi, |ky|, mon);
    assert vi[..|vi|] == vi;
  }

  lemma SoLuotTrongBuoc(ls: seq<LuotHoc>, kys: seq<nat>, k: nat, mon: nat)
    requires 0 < k <= |kys|
    ensures var ky := CuaKy(ls, kys[k - 1]);
            SoLuotTrong(ls, kys, k, mon) == SoLuotTrong(ls, kys, k - 1, mon) + SoLuot(ky, |ky|, mon)
  {
  }

  lemma {:induction false} SoLuotCacKy(all: seq<LuotHoc>, sv: nat, kys: seq<nat>, k: nat, mon: nat)
    requires k <= |kys| && Distinct(kys)
    ensures SoLuotTrong(CuaSv(all, sv), kys, k, mon) == |TrongCacKy(all, sv, kys[..k], mon)|
  {
    if k > 0 {
      var truoc, sau, hk := kys[..k - 1], kys[..k], kys[k - 1];
      SoLuotCacKy(all, sv, kys, k - 1, mon);
      SoLuotMotKy(all, sv, hk, mon);
      SoLuotTrongBuoc(CuaSv(all, sv), kys, k, mon);
      DistinctPrefix(kys, k - 1, truoc);
      TrongKyThem(all, sv, truoc, hk, mon, sau);
    } else {
      assert TrongCacKy(all, sv, kys[..0], mon) == {};
    }
  }

  lemma {:induction false} TinChiViTri(all: seq<LuotHoc>, ky: seq<LuotHoc>, vi: seq<nat>, m: map<nat, nat>)
    requires TakenAt(ky, all, vi) && Ascending(vi) && (forall q: nat :: q in m <==> q in vi)
    requires forall q: nat :: q in vi && q < |all| ==> m[q] == all[q].soTinChi
    ensures TinChiKy(ky) == Total(m)
  {
    if vi == [] {
      TotalZero(m);
    } else {
      var x := vi[0];
      var con := m - {x};
      assert x in vi && x !in vi[1..];
      assert forall q: nat :: q in vi <==> q == x || q in vi[1..];
      TinChiViTri(all, ky[1..], vi[1..], con);
      TotalTakeOut(m, x);
    }
  }

  lemma TinChiNghia(all: seq<LuotHoc>, p: nat)
    requires p < |all|
    ensures TinChiKy(CuaKy(CuaSv(all, all[p].maSinhVien), all[p].maHocKy)) == Total(TinChiCungKy(all, p))
  {
    var sv, hk := all[p].maSinhVien, all[p].maHocKy;
    CuaKyViTri(all, sv, hk);
    TinChiViTri(all, CuaKy(CuaSv(all, sv), hk), ViTri(all, sv, hk), TinChiCungKy(all, p));
  }

  // ---------------------------------------------------------------- the order of terms

  lemma ViTriSv(all: seq<LuotHoc>, q: nat) returns (i: nat)
    requires q < |all|
    ensures var ls, vi := CuaSv(all, all[q].maSinhVien), Positions(all, CuaMotSv(all[q].maSinhVien));
            i < |ls| && |ls| == |vi| && vi[i] == q && ls[i] == all[q]
  {
    var vi := Positions(all, CuaMotSv(all[q].maSinhVien));
    CuaSvViTri(all, all[q].maSinhVien);
    assert q in vi;
    i :| 0 <= i < |vi| && vi[i] == q;
  }

  /** Positions in the student's list keep the order of the whole one. */
  lemma ThuTuSv(all: seq<LuotHoc>, sv: nat, i: nat, y: nat) returns (c: nat)
    requires var vi := Positions(all, CuaMotSv(sv)); i < |vi| && y < |all| && all[y].maSinhVien == sv
    ensures var ls, vi := CuaSv(all, sv), Positions(all, CuaMotSv(sv));
            |ls| == |vi| && c < |vi| && vi[c] == y && ls[c] == all[y] && (y <= vi[i] <==> c <= i)
  {
    c := ViTriSv(all, y);
    AscendingPlace(Positions(all, CuaMotSv(sv)), i, c);
  }

  /** The term hq appears before the term hp among the student's attempts. */
  ghost predicate HienTruoc(ls: seq<LuotHoc>, i: nat, hq: nat, hp: nat) {
    i < |ls| && ls[i].maHocKy == hq && forall k :: 0 <= k <= i ==> ls[k].maHocKy != hp
  }

  lemma LanDauHien(ls: seq<LuotHoc>, hq: nat, hp: nat)
    requires CoKy(ls, hq) && CoKy(ls, hp)
    ensures LanDau(ls, hq) < LanDau(ls, hp) <==> exists i: nat :: HienTruoc(ls, i, hq, hp)
  {
    if LanDau(ls, hq) < LanDau(ls, hp) { assert HienTruoc(ls, LanDau(ls, hq), hq, hp); }
  }

  lemma HienTrongSv(all: seq<LuotHoc>, q: nat, p: nat, i: nat)
    requires q < |all| && p < |all| && all[q].maSinhVien == all[p].maSinhVien
    requires HienTruoc(CuaSv(all, all[p].maSinhVien), i, all[q].maHocKy, all[p].maHocKy)
    ensures exists x: nat :: DauTien(all, x, q, p)
  {
    var sv := all[p].maSinhVien;
    var ls, vi := CuaSv(all, sv), Positions(all, CuaMotSv(sv));
    CuaSvViTri(all, sv);
    assert vi[i] in vi;
    forall y: nat | y <= vi[i] && all[y].maSinhVien == sv ensures all[y].maHocKy != all[p].maHocKy {
      var c := ThuTuSv(all, sv, i, y);
    }
    assert DauTien(all, vi[i], q, p);
  }

  lemma DauTienTrongSv(all: seq<LuotHoc>, q: nat, p: nat, x: nat)
    requires q < |all| && p < |all| && all[q].maSinhVien == all[p].maSinhVien && DauTien(all, x, q, p)
    ensures exists i: nat :: HienTruoc(CuaSv(all, all[p].maSinhVien), i, all[q].maHocKy, all[p].maHocKy)
  {
    var sv := all[p].maSinhVien;
    var ls, vi := CuaSv(all, sv), Positions(all, CuaMotSv(sv));
    CuaSvViTri(all, sv);
    var i := ViTriSv(all, x);
    forall k | 0 <= k <= i ensures ls[k].maHocKy != all[p].maHocKy {
      assert vi[k] in vi;
      AscendingPlace(vi, i, k);
    }
    assert HienTruoc(ls, i, all[q].maHocKy, all[p].maHocKy);
  }

  /** Which of two terms of a student appears first, read off the student's attempts. */
  lemma LanDauNghia(all: seq<LuotHoc>, q: nat, p: nat)
    requires q < |all| && p < |all| && all[q].maSinhVien == all[p].maSinhVien
    ensures var ls := CuaSv(all, all[p].maSinhVien);
            LanDau(ls, all[q].maHocKy) < LanDau(ls, all[p].maHocKy) <==> exists x: nat :: DauTien(all, x, q, p)
  {
    var ls := CuaSv(all, all[p].maSinhVien);
    var a := ViTriSv(all, q);
    var b := ViTriSv(all, p);
    assert ls[a] in ls && ls[b] in ls;
    LanDauHien(ls, all[q].maHocKy, all[p].maHocKy);
    if i: nat :| HienTruoc(ls, i, all[q].maHocKy, all[p].maHocKy) { HienTrongSv(all, q, p, i); }
    if x: nat :| DauTien(all, x, q, p) { DauTienTrongSv(all, q, p, x); }
  }

  lemma KySomNghia(all: seq<LuotHoc>, q: nat, p: nat)
    requires q < |all| && p < |all| && all[q].maSinhVien == all[p].maSinhVien
    ensures DungTruoc(CuaSv(all, all[p].maSinhVien), all[q], all[p].maHocKy, all[p].ngayBatDauKy) <==>
            KySom(all, q, p)
  {
    LanDauNghia(all, q, p);
  }

  lemma MotNgayCuaSv(all: seq<LuotHoc>, sv: nat)
    requires MotNgayMoiKy(all)
    ensures MotNgayMoiKy(CuaSv(all, sv)) && forall l :: l in CuaSv(all, sv) ==> l in all && l.maSinhVien == sv
  {
    CuaSvViTri(all, sv);
    var ls, vi := CuaSv(all, sv), Positions(all, CuaMotSv(sv));
    forall l | l in ls ensures l in all && l.maSinhVien == sv {
      var i :| 0 <= i < |ls| && ls[i] == l;
      assert vi[i] in vi && all[vi[i]] in all;
    }
  }

  /** The terms before term i of a student are those that count as earlier. */
  lemma KyTruocTap(all: seq<LuotHoc>, p: nat, i: nat, q: nat)
    requires MotNgayMoiKy(all) && p < |all| && q < |all| && all[q].maSinhVien == all[p].maSinhVien
    requires var kys := CacKy(CuaSv(all, all[p].maSinhVien)); i < |kys| && kys[i] == all[p].maHocKy
    ensures all[q].maHocKy in CacKy(CuaSv(all, all[p].maSinhVien))[..i] <==> KySom(all, q, p)
  {
    var ls := CuaSv(all, all[p].maSinhVien);
    MotNgayCuaSv(all, all[p].maSinhVien);
    var a := ViTriSv(all, q);
    var b := ViTriSv(all, p);
    assert ls[a] in ls && ls[b] in ls;
    assert KyBatDau(ls, i, all[p].ngayBatDauKy);
    KyTruocExact(ls, i, all[p].ngayBatDauKy, all[q]);
    KySomNghia(all, q, p);
  }

  // ---------------------------------------------------------------- one row

  lemma LuotTruocTach(all: seq<LuotHoc>, p: nat, i: nat, j: nat, vi: seq<nat>)
    requires MotNgayMoiKy(all) && p < |all| && vi == ViTri(all, all[p].maSinhVien, all[p].maHocKy)
    requires var kys := CacKy(CuaSv(all, all[p].maSinhVien)); i < |kys| && kys[i] == all[p].maHocKy
    requires j < |vi| && vi[j] == p
    ensures var kys, mon := CacKy(CuaSv(all, all[p].maSinhVien)), all[p].maMonHoc;
            |LuotTruoc(all, p)| ==
            |TrongCacKy(all, all[p].maSinhVien, kys[..i], mon)| + |MonTai(all, vi[..j], mon)|
  {
    var sv, mon := all[p].maSinhVien, all[p].maMonHoc;
    var kys := CacKy(CuaSv(all, sv));
    var a, b := TrongCacKy(all, sv, kys[..i], mon), MonTai(all, vi[..j], mon);
    forall q: nat | q < |all| ensures q in LuotTruoc(all, p) <==> q in a || q in b {
      if all[q].maSinhVien == sv { KyTruocTap(all, p, i, q); }
      TruocTrongKy(vi, j, q);
    }
    assert LuotTruoc(all, p) == a + b;
    MotNgayCuaSv(all, sv);
    CacKyRieng(CuaSv(all, sv));
    assert kys[i] !in kys[..i];
    assert a !! b;
  }

  lemma TruocTrongKy(vi: seq<nat>, j: nat, q: nat)
    requires Ascending(vi) && j < |vi|
    ensures q in vi[..j] <==> q in vi && q < vi[j]
  {
    if q in vi && q < vi[j] {
      var k :| 0 <= k < |vi| && vi[k] == q;
      AscendingPlace(vi, k, j);
      assert vi[..j][k] == q;
    }
  }

  /** Row j of a term. */
  function HangThu(all: seq<LuotHoc>, ls: seq<LuotHoc>, kys: seq<nat>, k: nat, gpa: real, j: nat): RiskInput
    requires k < |kys| && j < |CuaKy(ls, kys[k])|
  {
    var ky := CuaKy(ls, kys[k]);
    HangCua(all, ky, gpa, SoLuotTrong(ls, kys, k, ky[j].maMonHoc), j)
  }

  ghost predicate LaHangThu(all: seq<LuotHoc>, ls: seq<LuotHoc>, kys: seq<nat>, k: nat, gpa: real, r: seq<RiskInput>)
    requires k < |kys|
  {
    |r| <= |CuaKy(ls, kys[k])| && forall j :: 0 <= j < |r| ==> r[j] == HangThu(all, ls, kys, k, gpa, j)
  }

  lemma HangKyBuoc(all: seq<LuotHoc>, ls: seq<LuotHoc>, kys: seq<nat>, k: nat, gpa: real, n: nat)
    requires k < |kys| && 0 < n <= |CuaKy(ls, kys[k])|
    ensures HangKy(all, ls, kys, k, gpa, n) ==
            HangKy(all, ls, kys, k, gpa, n - 1) + [HangThu(all, ls, kys, k, gpa, n - 1)]
  {
  }

  lemma HangThuThem(all: seq<LuotHoc>, ls: seq<LuotHoc>, kys: seq<nat>, k: nat, gpa: real,
                    r: seq<RiskInput>, h: RiskInput)
    requires k < |kys| && |r| < |CuaKy(ls, kys[k])|
    requires LaHangThu(all, ls, kys, k, gpa, r) && h == HangThu(all, ls, kys, k, gpa, |r|)
    ensures LaHangThu(all, ls, kys, k, gpa, r + [h])
  {
  }

  lemma {:induction false} HangKyTai(all: seq<LuotHoc>, ls: seq<LuotHoc>, kys: seq<nat>, k: nat, gpa: real, n: nat)
    requires k < |kys| && n <= |CuaKy(ls, kys[k])|
    ensures var r := HangKy(all, ls, kys, k, gpa, n); |r| == n && LaHangThu(all, ls, kys, k, gpa, r)
  {
    if n > 0 {
      HangKyTai(all, ls, kys, k, gpa, n - 1);
      HangKyBuoc(all, ls, kys, k, gpa, n);
      HangThuThem(all, ls, kys, k, gpa, HangKy(all, ls, kys, k, gpa, n - 1), HangThu(all, ls, kys, k, gpa, n - 1));
    }
  }

  /** How often the student took the course before attempt p, as the program counts it. */
  lemma LanHocNghia(all: seq<LuotHoc>, p: nat, i: nat, j: nat, ls: seq<LuotHoc>, kys: seq<nat>, ky: seq<LuotHoc>)
    requires MotNgayMoiKy(all) && p < |all|
    requires ls == CuaSv(all, all[p].maSinhVien) && kys == CacKy(ls) && ky == CuaKy(ls, all[p].maHocKy)
    requires i < |kys| && kys[i] == all[p].maHocKy
    requires var vi := ViTri(all, all[p].maSinhVien, all[p].maHocKy); j < |vi| && vi[j] == p
    ensures j < |ky| && ky[j] == all[p]
    ensures SoLuotTrong(ls, kys, i, all[p].maMonHoc) + SoLuot(ky, j, all[p].maMonHoc) == |LuotTruoc(all, p)|
  {
    var sv, hk, mon := all[p].maSinhVien, all[p].maHocKy, all[p].maMonHoc;
    var vi := ViTri(all, sv, hk);
    MotNgayCuaSv(all, sv);
    CacKyRieng(ls);
    CuaKyViTri(all, sv, hk);
    LuotTruocTach(all, p, i, j, vi);
    SoLuotCacKy(all, sv, kys, i, mon);
    SoLuotViTri(all, ky, vi, j, mon);
  }

  lemma MotHangDung(all: seq<LuotHoc>, p: nat, gpa: real, ky: seq<LuotHoc>, truoc: nat, j: nat)
    requires p < |all| && ky == CuaKy(CuaSv(all, all[p].maSinhVien), all[p].maHocKy)
    requires j < |ky| && ky[j] == all[p] && truoc + SoLuot(ky, j, all[p].maMonHoc) == |LuotTruoc(all, p)|
    ensures HangDung(all, p, HangCua(all, ky, gpa, truoc, j))
  {
    TyLeNghia(all, p);
    TinChiNghia(all, p);
  }

  // ---------------------------------------------------------------- the rows of one student

  ghost function LaHang(all: seq<LuotHoc>): (nat, RiskInput) -> bool {
    (p: nat, h: RiskInput) => p < |all| && HangDung(all, p, h)
  }

  ghost function LaTren(all: seq<LuotHoc>): (nat, nat) -> bool {
    (q: nat, p: nat) => q < |all| && p < |all| && DungTren(all, q, p)
  }

  ghost predicate DoanDung(all: seq<LuotHoc>, hang: seq<RiskInput>, vi: seq<nat>) {
    Numbered(hang, vi, LaHang(all), LaTren(all))
  }

  lemma DoanMotKy(all: seq<LuotHoc>, sv: nat, ls: seq<LuotHoc>, kys: seq<nat>, i: nat)
    requires MotNgayMoiKy(all) && ls == CuaSv(all, sv) && kys == CacKy(ls) && i < |kys|
    ensures DoanDung(all, HangCaKy(all, ls, kys, i), ViTri(all, sv, kys[i]))
  {
    var vi, ky, gpa := ViTri(all, sv, kys[i]), CuaKy(ls, kys[i]), GpaTruoc(ls, kys, i);
    var hang := HangCaKy(all, ls, kys, i);
    CuaKyViTri(all, sv, kys[i]);
    HangKyTai(all, ls, kys, i, gpa, |ky|);
    forall r | 0 <= r < |vi| ensures vi[r] < |all| && HangDung(all, vi[r], hang[r]) {
      var p := vi[r];
      assert p in vi;
      LanHocNghia(all, p, i, r, ls, kys, ky);
      MotHangDung(all, p, gpa, ky, SoLuotTrong(ls, kys, i, ky[r].maMonHoc), r);
    }
    forall r, s | 0 <= r < s < |vi| ensures DungTren(all, vi[r], vi[s]) {
      assert vi[r] in vi && vi[s] in vi;
      assert CungKy(all, vi[r], vi[s]) && vi[r] < vi[s];
    }
  }

  function ViTriCacKy(all: seq<LuotHoc>, sv: nat, kys: seq<nat>): nat -> seq<nat> {
    (k: nat) => if k < |kys| then ViTri(all, sv, kys[k]) else []
  }

  lemma KyTren(all: seq<LuotHoc>, sv: nat, i: nat, j: nat, q: nat, p: nat)
    requires MotNgayMoiKy(all)
    requires var kys := CacKy(CuaSv(all, sv));
             i < j < |kys| && q in ViTri(all, sv, kys[i]) && p in ViTri(all, sv, kys[j])
    ensures q < |all| && p < |all| && DungTren(all, q, p)
  {
    var kys := CacKy(CuaSv(all, sv));
    assert kys[..j][i] == kys[i];
    KyTruocTap(all, p, j, q);
  }

  /** Where the attempts of one student stand, term by term. */
  function ViTriCaSv(all: seq<LuotHoc>, sv: nat): seq<nat> {
    var kys := CacKy(CuaSv(all, sv));
    Joined(ViTriCacKy(all, sv, kys), |kys|)
  }

  lemma DoanCaSv(all: seq<LuotHoc>, sv: nat)
    requires MotNgayMoiKy(all)
    ensures DoanDung(all, HangCaSv(all, sv), ViTriCaSv(all, sv))
  {
    var ls := CuaSv(all, sv);
    var kys := CacKy(ls);
    var f, g := HangCacKy(all, ls, kys), ViTriCacKy(all, sv, kys);
    forall k: nat | k < |kys| ensures Numbered(f(k), g(k), LaHang(all), LaTren(all)) { DoanMotKy(all, sv, ls, kys, k); }
    forall i: nat, j: nat, q, p | i < j < |kys| && q in g(i) && p in g(j) ensures LaTren(all)(q, p) {
      KyTren(all, sv, i, j, q, p);
    }
    NumberedJoined(f, g, |kys|, LaHang(all), LaTren(all));
  }

  lemma KyCuaLuot(all: seq<LuotHoc>, q: nat) returns (i: nat)
    requires q < |all|
    ensures var kys := CacKy(CuaSv(all, all[q].maSinhVien));
            i < |kys| && q in ViTriCacKy(all, all[q].maSinhVien, kys)(i)
  {
    var ls := CuaSv(all, all[q].maSinhVien);
    var a := ViTriSv(all, q);
    assert ls[a] in ls;
    i := ViTriKy(ls, all[q]);
  }

  lemma ViTriCaSvNghia(all: seq<LuotHoc>, sv: nat, q: nat)
    ensures q in ViTriCaSv(all, sv) <==> q < |all| && all[q].maSinhVien == sv
  {
    var kys := CacKy(CuaSv(all, sv));
    var g := ViTriCacKy(all, sv, kys);
    JoinedHolds(g, |kys|, q);
    if q in ViTriCaSv(all, sv) {
      var k: nat :| k < |kys| && q in g(k);
      assert q in ViTri(all, sv, kys[k]);
    }
    if q < |all| && all[q].maSinhVien == sv { var i := KyCuaLuot(all, q); }
  }

  // ---------------------------------------------------------------- all students

  lemma {:induction false} CacSvNghia(all: seq<LuotHoc>, sv: nat)
    ensures sv in CacSv(all) <==> exists q: nat :: q < |all| && all[q].maSinhVien == sv
  {
    if all != [] {
      var n: nat := |all| - 1;
      CacSvNghia(all[..n], sv);
      assert forall q: nat :: q < n ==> all[..n][q] == all[q];
    }
  }

  /** Students are listed in the order in which they first appear. */
  lemma {:induction false} CacSvThuTu(all: seq<LuotHoc>, i: nat, j: nat)
    requires i < j < |CacSv(all)|
    ensures exists x: nat :: SvHien(all, x, CacSv(all)[i], CacSv(all)[j])
  {
    var n: nat := |all| - 1;
    var truoc, s := all[..n], CacSv(all[..n]);
    var t := CacSv(all);
    assert t == if all[n].maSinhVien in s then s else s + [all[n].maSinhVien];
    assert s[i] == t[i];
    if j < |s| {
      assert s[j] == t[j];
      CacSvThuTu(truoc, i, j);
      var x: nat :| SvHien(truoc, x, s[i], s[j]);
      assert forall y :: 0 <= y <= x ==> truoc[y] == all[y];
      assert SvHien(all, x, s[i], s[j]);
    } else {
      var b := all[n].maSinhVien;
      assert s[i] in s;
      CacSvNghia(truoc, s[i]);
      CacSvNghia(truoc, b);
      var x: nat :| x < |truoc| && truoc[x].maSinhVien == s[i];
      assert b !in s;
      assert forall y: nat :: y < n ==> truoc[y] == all[y];
      assert SvHien(all, x, s[i], b);
      assert t[j] == b;
    }
  }

  function ViTriCacSv(all: seq<LuotHoc>, svs: seq<nat>): nat -> seq<nat> {
    (k: nat) => if k < |svs| then ViTriCaSv(all, svs[k]) else []
  }

  lemma SvTren(all: seq<LuotHoc>, i: nat, j: nat, q: nat, p: nat)
    requires MotNgayMoiKy(all)
    requires var svs := CacSv(all); i < j < |svs| && q in ViTriCaSv(all, svs[i]) && p in ViTriCaSv(all, svs[j])
    ensures q < |all| && p < |all| && DungTren(all, q, p)
  {
    var svs := CacSv(all);
    ViTriCaSvNghia(all, svs[i], q);
    ViTriCaSvNghia(all, svs[j], p);
    CacSvThuTu(all, i, j);
    assert SvTruoc(all, q, p);
  }

  lemma KhongTruocChinhMinh(all: seq<LuotHoc>, q: nat)
    requires q < |all|
    ensures !DungTren(all, q, q)
  {
  }

  lemma DoanRieng(all: seq<LuotHoc>, hang: seq<RiskInput>, vi: seq<nat>)
    requires DoanDung(all, hang, vi)
    ensures Distinct(vi)
  {
    forall r, s | 0 <= r < s < |vi| ensures vi[r] != vi[s] {
      assert LaTren(all)(vi[r], vi[s]);
      if vi[r] == vi[s] { KhongTruocChinhMinh(all, vi[r]); }
    }
  }

  lemma DoanCacSv(all: seq<LuotHoc>, svs: seq<nat>)
    requires MotNgayMoiKy(all) && svs == CacSv(all)
    ensures DoanDung(all, TapHuanLuyen(all, svs, |svs|), Joined(ViTriCacSv(all, svs), |svs|))
  {
    var f, g := HangCacSv(all, svs), ViTriCacSv(all, svs);
    forall k: nat | k < |svs| ensures Numbered(f(k), g(k), LaHang(all), LaTren(all)) { DoanCaSv(all, svs[k]); }
    forall i: nat, j: nat, q, p | i < j < |svs| && q in g(i) && p in g(j) ensures LaTren(all)(q, p) {
      SvTren(all, i, j, q, p);
    }
    NumberedJoined(f, g, |svs|, LaHang(all), LaTren(all));
  }

  lemma CoMat(all: seq<LuotHoc>, svs: seq<nat>, q: nat)
    requires MotNgayMoiKy(all) && svs == CacSv(all) && q < |all|
    ensures q in Joined(ViTriCacSv(all, svs), |svs|)
  {
    var g := ViTriCacSv(all, svs);
    CacSvNghia(all, all[q].maSinhVien);
    var k: nat :| k < |svs| && svs[k] == all[q].maSinhVien;
    ViTriCaSvNghia(all, svs[k], q);
    assert q in g(k);
    JoinedHolds(g, |svs|, q);
  }

  /** The training set, term dates being well defined: its rows and the attempts correspond one to one, in
      order, and every row says what it should. */
  lemma RowsExact(all: seq<LuotHoc>) returns (vi: seq<nat>)
    requires MotNgayMoiKy(all)
    ensures LaTap(all, TapHuanLuyen(all, CacSv(all), |CacSv(all)|), vi)
  {
    var svs := CacSv(all);
    var hang := TapHuanLuyen(all, svs, |svs|);
    vi := Joined(ViTriCacSv(all, svs), |svs|);
    DoanCacSv(all, svs);
    DoanRieng(all, hang, vi);
    forall q: nat | q < |all| ensures q in vi { CoMat(all, svs, q); }
    forall r | 0 <= r < |vi| ensures vi[r] < |all| && HangDung(all, vi[r], hang[r]) {
      assert LaHang(all)(vi[r], hang[r]);
    }
    forall r, s | 0 <= r < s < |vi| ensures DungTren(all, vi[r], vi[s]) { assert LaTren(all)(vi[r], vi[s]); }
  }

  // ---------------------------------------------------------------- the loop over the students

  method XayDungTapHuanLuyen(all: seq<LuotHoc>) returns (ketQua: seq<RiskInput>)
    ensures ketQua == TapHuanLuyen(all, CacSv(all), |CacSv(all)|)
    ensures MotNgayMoiKy(all) ==> exists vi :: LaTap(all, ketQua, vi)
  {
    ketQua := [];
    var svs := CacSv(all);
    for i := 0 to |svs|
      invariant ketQua == TapHuanLuyen(all, svs, i)
    {
      var cuaSv := DongCuaSinhVien(all, CuaSv(all, svs[i]));
      TapHuanLuyenBuoc(all, svs, i);
      ketQua := ketQua + cuaSv;
    }
    if MotNgayMoiKy(all) { ghost var vi := RowsExact(all); }
  }
}
