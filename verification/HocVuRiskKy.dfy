/** The terms of a student's history in the order in which the rows are built: by starting date, and on one
    day in the order in which they first appear. */
module HocVuRiskKy {
  import opened Collections
  import opened HocVuRisk

  lemma {:induction false} MaKyNghia(s: seq<(nat, int)>)
    ensures |MaKy(s)| == |s| && forall i :: 0 <= i < |s| ==> MaKy(s)[i] == s[i].0
  {
    if s != [] { MaKyNghia(s[1..]); }
  }

  lemma {:induction false} CapKyTu(ls: seq<LuotHoc>, c: (nat, int))
    ensures c in CapKy(ls) <==> exists l :: l in ls && c == (l.maHocKy, -l.ngayBatDauKy)
  {
    if ls != [] {
      var truoc, l := ls[..|ls| - 1], ls[|ls| - 1];
      CapKyTu(truoc, c);
      assert ls == truoc + [l];
      assert forall x :: x in ls <==> x in truoc || x == l;
    }
  }

  /** The terms come in the order of their starting dates, given that a term has one such date. */
  lemma TermsInOrder(ls: seq<LuotHoc>, i: nat, j: nat, a: LuotHoc, b: LuotHoc)
    requires forall x, y :: x in ls && y in ls && x.maHocKy == y.maHocKy ==> x.ngayBatDauKy == y.ngayBatDauKy
    requires i < j < |CacKy(ls)| && a in ls && b in ls && a.maHocKy == CacKy(ls)[i] && b.maHocKy == CacKy(ls)[j]
    ensures a.ngayBatDauKy <= b.ngayBatDauKy
  {
    var s := StableDescending(CapKy(ls));
    StableDescendingSorts(CapKy(ls));
    MaKyNghia(s);
    assert s[i] in multiset(s) && s[j] in multiset(s);
    assert s[i] in CapKy(ls) && s[j] in CapKy(ls);
    CapKyTu(ls, s[i]);
    CapKyTu(ls, s[j]);
    assert s[i].1 >= s[j].1;
  }

  /** A term starts on one date. */
  ghost predicate MotNgayMoiKy(ls: seq<LuotHoc>) {
    forall x, y :: x in ls && y in ls && x.maHocKy == y.maHocKy ==> x.ngayBatDauKy == y.ngayBatDauKy
  }

  ghost predicate KyBatDau(ls: seq<LuotHoc>, i: nat, ngay: int) {
    i < |CacKy(ls)| && exists l :: l in ls && l.maHocKy == CacKy(ls)[i] && l.ngayBatDauKy == ngay
  }

  // ---------------------------------------------------------------- first appearance

  predicate CoKy(ls: seq<LuotHoc>, hk: nat) { exists l :: l in ls && l.maHocKy == hk }

  /** Where a term first appears. */
  function LanDau(ls: seq<LuotHoc>, hk: nat): (r: nat)
    ensures CoKy(ls, hk) ==> r < |ls| && ls[r].maHocKy == hk && forall j :: 0 <= j < r ==> ls[j].maHocKy != hk
  {
    if ls == [] then 0
    else
      var truoc := ls[..|ls| - 1];
      assert ls == truoc + [ls[|ls| - 1]];
      if CoKy(truoc, hk) then LanDau(truoc, hk)
      else
        assert forall j :: 0 <= j < |truoc| ==> truoc[j] in truoc;
        |truoc|
  }

  lemma CapKyBuoc(ls: seq<LuotHoc>)
    requires ls != []
    ensures var truoc, l := CapKy(ls[..|ls| - 1]), ls[|ls| - 1];
            var k := (l.maHocKy, -l.ngayBatDauKy);
            CapKy(ls) == if k in truoc then truoc else truoc + [k]
  {
  }

  lemma CapKyCoKy(ls: seq<LuotHoc>, c: (nat, int))
    requires c in CapKy(ls)
    ensures CoKy(ls, c.0)
  {
    CapKyTu(ls, c);
  }

  /** The terms are collected in the order in which they first appear. */
  lemma {:induction false} CapKyThuTu(ls: seq<LuotHoc>, x: nat, y: nat)
    requires MotNgayMoiKy(ls) && x < y < |CapKy(ls)|
    ensures LanDau(ls, CapKy(ls)[x].0) < LanDau(ls, CapKy(ls)[y].0)
  {
    var truoc, l := ls[..|ls| - 1], ls[|ls| - 1];
    var s, t := CapKy(truoc), CapKy(ls);
    assert ls == truoc + [l] && forall z :: z in truoc ==> z in ls;
    CapKyBuoc(ls);
    assert t[x] == s[x] && s[x] in s;
    CapKyCoKy(truoc, s[x]);
    if y < |s| {
      assert t[y] == s[y] && s[y] in s;
      CapKyCoKy(truoc, s[y]);
      CapKyThuTu(truoc, x, y);
    } else {
      assert t[y] == (l.maHocKy, -l.ngayBatDauKy) && t[y] !in s;
      KyMoi(truoc, l);
    }
  }

  lemma KyMoi(truoc: seq<LuotHoc>, l: LuotHoc)
    requires MotNgayMoiKy(truoc + [l]) && (l.maHocKy, -l.ngayBatDauKy) !in CapKy(truoc)
    ensures !CoKy(truoc, l.maHocKy)
  {
    if CoKy(truoc, l.maHocKy) {
      var z :| z in truoc && z.maHocKy == l.maHocKy;
      assert z in truoc + [l] && l in truoc + [l];
      CapKyTu(truoc, (z.maHocKy, -z.ngayBatDauKy));
    }
  }

  // ---------------------------------------------------------------- distinct terms

  lemma {:induction false} CapKyRieng(ls: seq<LuotHoc>)
    ensures Distinct(CapKy(ls))
  {
    if ls != [] {
      var truoc := CapKy(ls[..|ls| - 1]);
      CapKyRieng(ls[..|ls| - 1]);
      CapKyBuoc(ls);
      assert forall i :: 0 <= i < |truoc| ==> truoc[i] in truoc;
    }
  }

  lemma TrongSapXep(ls: seq<LuotHoc>, x: (nat, int))
    ensures x in StableDescending(CapKy(ls)) <==> exists l :: l in ls && x == (l.maHocKy, -l.ngayBatDauKy)
  {
    var s := StableDescending(CapKy(ls));
    StableDescendingSorts(CapKy(ls));
    assert x in s <==> x in multiset(s);
    assert x in CapKy(ls) <==> x in multiset(CapKy(ls));
    CapKyTu(ls, x);
  }

  lemma CapKhacKy(ls: seq<LuotHoc>, x: (nat, int), y: (nat, int))
    requires MotNgayMoiKy(ls) && x in StableDescending(CapKy(ls)) && y in StableDescending(CapKy(ls)) && x != y
    ensures x.0 != y.0
  {
    TrongSapXep(ls, x);
    TrongSapXep(ls, y);
  }

  lemma CacKyRieng(ls: seq<LuotHoc>)
    requires MotNgayMoiKy(ls)
    ensures Distinct(CacKy(ls))
  {
    var s := StableDescending(CapKy(ls));
    StableDescendingSorts(CapKy(ls));
    CapKyRieng(ls);
    PermutationDistinct(CapKy(ls), s);
    MaKyNghia(s);
    forall i, j | 0 <= i < j < |s| ensures s[i].0 != s[j].0 { CapKhacKy(ls, s[i], s[j]); }
  }

  lemma KhoaCuaKy(ls: seq<LuotHoc>, i: nat, ngay: int)
    requires MotNgayMoiKy(ls) && KyBatDau(ls, i, ngay)
    ensures i < |StableDescending(CapKy(ls))| && StableDescending(CapKy(ls))[i] == (CacKy(ls)[i], -ngay)
  {
    var s := StableDescending(CapKy(ls));
    MaKyNghia(s);
    TrongSapXep(ls, s[i]);
  }

  /** Every attempt's term is in the list. */
  lemma ViTriKy(ls: seq<LuotHoc>, l: LuotHoc) returns (p: nat)
    requires l in ls
    ensures p < |CacKy(ls)| && CacKy(ls)[p] == l.maHocKy && KyBatDau(ls, p, l.ngayBatDauKy)
  {
    var s := StableDescending(CapKy(ls));
    TrongSapXep(ls, (l.maHocKy, -l.ngayBatDauKy));
    p :| 0 <= p < |s| && s[p] == (l.maHocKy, -l.ngayBatDauKy);
    MaKyNghia(s);
  }

  // ---------------------------------------------------------------- which terms come before

  /** The attempt's term starts before the date, or on it and appears before term hk does. */
  predicate DungTruoc(ls: seq<LuotHoc>, l: LuotHoc, hk: nat, ngay: int) {
    l.ngayBatDauKy < ngay || (l.ngayBatDauKy == ngay && LanDau(ls, l.maHocKy) < LanDau(ls, hk))
  }

  /** Of two terms the one that starts earlier comes first; of two that start on one day, the one that
      appears first. */
  lemma TermOrderExact(ls: seq<LuotHoc>, i: nat, ngay: int, p: nat, l: LuotHoc)
    requires MotNgayMoiKy(ls) && KyBatDau(ls, i, ngay) && l in ls
    requires p < |CacKy(ls)| && CacKy(ls)[p] == l.maHocKy
    ensures p < i <==> DungTruoc(ls, l, CacKy(ls)[i], ngay)
  {
    var s := StableDescending(CapKy(ls));
    StableDescendingSorts(CapKy(ls));
    assert KyBatDau(ls, p, l.ngayBatDauKy);
    KhoaCuaKy(ls, i, ngay);
    KhoaCuaKy(ls, p, l.ngayBatDauKy);
    if l.ngayBatDauKy == ngay && p < i {
      var x, y := StableKeepsPair(CapKy(ls), p, i);
      CapKyThuTu(ls, x, y);
    }
    if l.ngayBatDauKy == ngay && i < p {
      var x, y := StableKeepsPair(CapKy(ls), i, p);
      CapKyThuTu(ls, x, y);
    }
  }

  lemma KyTruocExact(ls: seq<LuotHoc>, i: nat, ngay: int, l: LuotHoc)
    requires MotNgayMoiKy(ls) && KyBatDau(ls, i, ngay) && l in ls
    ensures l.maHocKy in CacKy(ls)[..i] <==> DungTruoc(ls, l, CacKy(ls)[i], ngay)
  {
    var kys := CacKy(ls);
    CacKyRieng(ls);
    var p := ViTriKy(ls, l);
    TermOrderExact(ls, i, ngay, p, l);
    if l.maHocKy in kys[..i] {
      var q :| 0 <= q < i && kys[..i][q] == l.maHocKy;
      assert kys[q] == kys[p];
    }
    if p < i { assert kys[..i][p] == l.maHocKy; }
  }
}
