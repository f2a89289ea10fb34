/** Which term a request is about, and whether registration is open in it. */
module HocKyHienTai {
  import opened Wrappers
  import opened Collections
  import opened CoSoDuLieu
  import opened DangKyHocPhan

  /** The round applies to the student and, unless every round is wanted, is under way. */
  predicate DotDuocXet(d: DotDangKy, sv: SinhVien, now: int, tatCa: bool) {
    DotApDungCho(d, sv) && (tatCa || d.batDau <= now <= d.ketThuc)
  }

  /** The rounds to consider, each with its start, the key they are sorted by. */
  function CacDot(ds: seq<DotDangKy>, sv: SinhVien, now: int, tatCa: bool): seq<(DotDangKy, int)> {
    if ds == [] then []
    else (if DotDuocXet(ds[0], sv, now, tatCa) then [(ds[0], ds[0].batDau)] else []) + CacDot(ds[1..], sv, now, tatCa)
  }

  predicate CoLopTrongKy(db: Db, hk: nat) { exists l :: l in db.lops && db.lops[l].maHocKy == hk }

  function CacKy(dm: DanhMuc, db: Db, ids: seq<nat>, tatCa: bool): seq<(nat, int)> {
    if ids == [] then []
    else
      (if ids[0] in dm.hocKys && (tatCa || CoLopTrongKy(db, ids[0]))
       then [(ids[0], dm.hocKys[ids[0]].ngayBatDau)] else []) +
      CacKy(dm, db, ids[1..], tatCa)
  }

  function DauTien<T>(s: seq<(T, int)>): Option<T> {
    var t := StableDescending(s);
    if t == [] then None else Some(t[0].0)
  }

  /** The term of the newest round under way, else of the newest round, else the newest term with a
      class, else the newest term. Rounds are read in the order of the list, terms in key order. */
  function ResolveHocKyHienTai(dm: DanhMuc, db: Db, sv: SinhVien, now: int): Option<nat> {
    var mo, gan := DauTien(CacDot(dm.dots, sv, now, false)), DauTien(CacDot(dm.dots, sv, now, true));
    if mo.Some? then Some(mo.value.maHocKy)
    else if gan.Some? then Some(gan.value.maHocKy)
    else
      var ids := SortedKeys(dm.hocKys.Keys);
      var coLop := DauTien(CacKy(dm, db, ids, false));
      if coLop.Some? then coLop else DauTien(CacKy(dm, db, ids, true))
  }

  lemma DauTienCo<T>(s: seq<(T, int)>)
    ensures DauTien(s).Some? ==> exists x :: x in s && x.0 == DauTien(s).value
    ensures DauTien(s).None? <==> s == []
  {
    var t := StableDescending(s);
    StableDescendingSorts(s);
    assert |multiset(s)| == |multiset(t)|;
    if t != [] { assert t[0] in multiset(s); }
  }

  lemma {:induction false} CacKyCo(dm: DanhMuc, db: Db, ids: seq<nat>, tatCa: bool)
    ensures forall x :: x in CacKy(dm, db, ids, tatCa) ==> x.0 in dm.hocKys
  {
    if ids != [] { CacKyCo(dm, db, ids[1..], tatCa); }
  }

  lemma {:induction false} CacDotCo(ds: seq<DotDangKy>, sv: SinhVien, now: int, tatCa: bool)
    ensures forall x :: x in CacDot(ds, sv, now, tatCa) ==> x.0 in ds
  {
    if ds != [] { CacDotCo(ds[1..], sv, now, tatCa); }
  }

  /** Rounds are of terms in the table. */
  ghost predicate DotDung(dm: DanhMuc) { forall d :: d in dm.dots ==> d.maHocKy in dm.hocKys }

  lemma DotCo(dm: DanhMuc, sv: SinhVien, now: int, tatCa: bool)
    requires DotDung(dm)
    ensures var d := DauTien(CacDot(dm.dots, sv, now, tatCa)); d.Some? ==> d.value.maHocKy in dm.hocKys
  {
    DauTienCo(CacDot(dm.dots, sv, now, tatCa));
    CacDotCo(dm.dots, sv, now, tatCa);
  }

  lemma KyCo(dm: DanhMuc, db: Db, ids: seq<nat>, tatCa: bool)
    ensures var k := DauTien(CacKy(dm, db, ids, tatCa)); k.Some? ==> k.value in dm.hocKys
  {
    DauTienCo(CacKy(dm, db, ids, tatCa));
    CacKyCo(dm, db, ids, tatCa);
  }

  lemma HocKyCo(dm: DanhMuc, db: Db, sv: SinhVien, now: int)
    requires DotDung(dm)
    ensures var r := ResolveHocKyHienTai(dm, db, sv, now); r.Some? ==> r.value in dm.hocKys
  {
    var ids := SortedKeys(dm.hocKys.Keys);
    DotCo(dm, sv, now, false);
    DotCo(dm, sv, now, true);
    KyCo(dm, db, ids, false);
    KyCo(dm, db, ids, true);
  }

  // ---------------------------------------------------------------- the newest round

  predicate MoiHon(ds: seq<DotDangKy>, j: nat, i: nat)
    requires i < |ds| && j < |ds|
  {
    ds[j].batDau < ds[i].batDau || (ds[j].batDau == ds[i].batDau && i <= j)
  }

  /** Round i is considered, and of those considered none starts later, nor earlier in the list as late. */
  ghost predicate LaMoiNhat(ds: seq<DotDangKy>, sv: SinhVien, now: int, tatCa: bool, i: nat) {
    && i < |ds| && DotDuocXet(ds[i], sv, now, tatCa)
    && forall j: nat :: j < |ds| && DotDuocXet(ds[j], sv, now, tatCa) ==> MoiHon(ds, j, i)
  }

  lemma {:induction false} MoiNhatDauTien(ds: seq<DotDangKy>, sv: SinhVien, now: int, tatCa: bool)
    ensures var s := StableDescending(CacDot(ds, sv, now, tatCa));
            if s == [] then forall j: nat :: j < |ds| ==> !DotDuocXet(ds[j], sv, now, tatCa)
            else s[0].0 in ds && DotDuocXet(s[0].0, sv, now, tatCa) && s[0].1 == s[0].0.batDau &&
                 exists i: nat :: LaMoiNhat(ds, sv, now, tatCa, i) && ds[i] == s[0].0
  {
    if ds != [] {
      var con := StableDescending(CacDot(ds[1..], sv, now, tatCa));
      MoiNhatDauTien(ds[1..], sv, now, tatCa);
      assert forall j: nat :: 0 < j < |ds| ==> ds[j] == ds[1..][j - 1];
      if DotDuocXet(ds[0], sv, now, tatCa) {
        assert CacDot(ds, sv, now, tatCa)[1..] == CacDot(ds[1..], sv, now, tatCa);
        if con == [] {
          assert LaMoiNhat(ds, sv, now, tatCa, 0);
        } else {
          var i: nat :| LaMoiNhat(ds[1..], sv, now, tatCa, i) && ds[1..][i] == con[0].0;
          MoiNhatThem(ds, sv, now, tatCa, i);
        }
      } else {
        assert CacDot(ds, sv, now, tatCa) == CacDot(ds[1..], sv, now, tatCa);
        if con != [] {
          var i: nat :| LaMoiNhat(ds[1..], sv, now, tatCa, i) && ds[1..][i] == con[0].0;
          MoiNhatThem(ds, sv, now, tatCa, i);
        }
      }
    }
  }

  lemma MoiNhatThem(ds: seq<DotDangKy>, sv: SinhVien, now: int, tatCa: bool, i: nat)
    requires ds != [] && LaMoiNhat(ds[1..], sv, now, tatCa, i)
    ensures LaMoiNhat(ds, sv, now, tatCa,
                      if DotDuocXet(ds[0], sv, now, tatCa) && ds[i + 1].batDau <= ds[0].batDau then 0 else i + 1)
  {
    var k := if DotDuocXet(ds[0], sv, now, tatCa) && ds[i + 1].batDau <= ds[0].batDau then 0 else i + 1;
    forall j: nat | j < |ds| && DotDuocXet(ds[j], sv, now, tatCa) ensures MoiHon(ds, j, k) {
      if j > 0 { assert DotDuocXet(ds[1..][j - 1], sv, now, tatCa) && MoiHon(ds[1..], j - 1, i); }
    }
  }

  lemma MoiNhatDuyNhat(ds: seq<DotDangKy>, sv: SinhVien, now: int, tatCa: bool, i: nat, k: nat)
    requires LaMoiNhat(ds, sv, now, tatCa, i) && LaMoiNhat(ds, sv, now, tatCa, k)
    ensures i == k
  {
    assert MoiHon(ds, i, k) && MoiHon(ds, k, i);
  }

  // ---------------------------------------------------------------- no round under way

  /** Item i has the largest key, and is the first of several. */
  ghost predicate LaDauTien<T>(s: seq<(T, int)>, i: nat) {
    i < |s| && forall j :: 0 <= j < |s| ==> s[j].1 < s[i].1 || (s[j].1 == s[i].1 && i <= j)
  }

  lemma DauTienThem<T>(s: seq<(T, int)>, con: seq<(T, int)>, k: nat) returns (i: nat)
    requires s != [] && con == s[1..] && LaDauTien(con, k)
    ensures LaDauTien(s, i) && s[i] == if con[k].1 <= s[0].1 then s[0] else con[k]
  {
    i := if con[k].1 <= s[0].1 then 0 else k + 1;
    assert forall j :: 0 < j < |s| ==> s[j] == con[j - 1];
  }

  lemma {:induction false} DauTienNghia<T>(s: seq<(T, int)>) returns (i: nat)
    requires s != []
    ensures LaDauTien(s, i) && StableDescending(s) != [] && StableDescending(s)[0] == s[i]
  {
    var con := s[1..];
    PlaceHead(s[0], StableDescending(con));
    if con == [] {
      i := 0;
    } else {
      var k := DauTienNghia(con);
      i := DauTienThem(s, con, k);
    }
  }

  /** The term is considered: any term, or one with a class. */
  ghost predicate KyDuocXet(dm: DanhMuc, db: Db, k: nat, tatCa: bool) {
    k in dm.hocKys && (tatCa || exists l :: l in db.lops && db.lops[l].maHocKy == k)
  }

  /** Of the terms considered none starts later than k, and none that starts with it has a smaller key. */
  ghost predicate KyMoiNhat(dm: DanhMuc, db: Db, k: nat, tatCa: bool) {
    && KyDuocXet(dm, db, k, tatCa)
    && forall h: nat :: KyDuocXet(dm, db, h, tatCa) ==>
         dm.hocKys[h].ngayBatDau < dm.hocKys[k].ngayBatDau ||
         (dm.hocKys[h].ngayBatDau == dm.hocKys[k].ngayBatDau && k <= h)
  }

  lemma {:induction false} CacKyNghia(dm: DanhMuc, db: Db, ids: seq<nat>, tatCa: bool, x: (nat, int))
    ensures x in CacKy(dm, db, ids, tatCa) <==>
            x.0 in ids && KyDuocXet(dm, db, x.0, tatCa) && x.1 == dm.hocKys[x.0].ngayBatDau
  {
    if ids != [] {
      CacKyNghia(dm, db, ids[1..], tatCa, x);
      assert x.0 in ids <==> x.0 == ids[0] || x.0 in ids[1..];
    }
  }

  lemma {:induction false} CacKyTang(dm: DanhMuc, db: Db, ids: seq<nat>, tatCa: bool, i: nat, j: nat)
    requires Ascending(ids) && i < j < |CacKy(dm, db, ids, tatCa)|
    ensures CacKy(dm, db, ids, tatCa)[i].0 < CacKy(dm, db, ids, tatCa)[j].0
  {
    var s, con := CacKy(dm, db, ids, tatCa), CacKy(dm, db, ids[1..], tatCa);
    if s == con {
      CacKyTang(dm, db, ids[1..], tatCa, i, j);
    } else if i > 0 {
      CacKyTang(dm, db, ids[1..], tatCa, i - 1, j - 1);
    } else {
      assert s[j] == con[j - 1] && con[j - 1] in con;
      CacKyNghia(dm, db, ids[1..], tatCa, con[j - 1]);
      assert s[0].0 == ids[0];
    }
  }

  /** The list holds the terms considered, each with its start, in key order. */
  ghost predicate LaCacKy(dm: DanhMuc, db: Db, tatCa: bool, s: seq<(nat, int)>) {
    && (forall x :: x in s <==> KyDuocXet(dm, db, x.0, tatCa) && x.1 == dm.hocKys[x.0].ngayBatDau)
    && forall i, j :: 0 <= i < j < |s| ==> s[i].0 < s[j].0
  }

  lemma CacKyLa(dm: DanhMuc, db: Db, tatCa: bool)
    ensures LaCacKy(dm, db, tatCa, CacKy(dm, db, SortedKeys(dm.hocKys.Keys), tatCa))
  {
    var ids := SortedKeys(dm.hocKys.Keys);
    var s := CacKy(dm, db, ids, tatCa);
    forall x ensures x in s <==> KyDuocXet(dm, db, x.0, tatCa) && x.1 == dm.hocKys[x.0].ngayBatDau {
      CacKyNghia(dm, db, ids, tatCa, x);
    }
    forall i, j | 0 <= i < j < |s| ensures s[i].0 < s[j].0 { CacKyTang(dm, db, ids, tatCa, i, j); }
  }

  lemma KyDauDanhSach(dm: DanhMuc, db: Db, tatCa: bool, k: nat, s: seq<(nat, int)>, i: nat)
    requires KyMoiNhat(dm, db, k, tatCa) && LaCacKy(dm, db, tatCa, s) && LaDauTien(s, i)
    ensures s[i].0 == k
  {
    var x := (k, dm.hocKys[k].ngayBatDau);
    assert x in s;
    var j: nat :| j < |s| && s[j] == x;
    assert s[i] in s;
    assert KyDuocXet(dm, db, s[i].0, tatCa);
  }

  lemma KyDauTien(dm: DanhMuc, db: Db, tatCa: bool, k: nat)
    requires KyMoiNhat(dm, db, k, tatCa)
    ensures DauTien(CacKy(dm, db, SortedKeys(dm.hocKys.Keys), tatCa)) == Some(k)
  {
    var s := CacKy(dm, db, SortedKeys(dm.hocKys.Keys), tatCa);
    CacKyLa(dm, db, tatCa);
    assert (k, dm.hocKys[k].ngayBatDau) in s;
    var i := DauTienNghia(s);
    KyDauDanhSach(dm, db, tatCa, k, s, i);
  }

  ghost predicate KhongCoDot(dm: DanhMuc, sv: SinhVien) { forall d :: d in dm.dots ==> !DotApDungCho(d, sv) }

  ghost predicate KhongCoLop(dm: DanhMuc, db: Db) { forall k: nat :: !KyDuocXet(dm, db, k, false) }

  lemma KhongDotNao(dm: DanhMuc, db: Db, sv: SinhVien, now: int)
    requires KhongCoDot(dm, sv)
    ensures var ids := SortedKeys(dm.hocKys.Keys);
            var coLop := DauTien(CacKy(dm, db, ids, false));
            ResolveHocKyHienTai(dm, db, sv, now) ==
            if coLop.Some? then coLop else DauTien(CacKy(dm, db, ids, true))
  {
    KhongDotMo(dm.dots, sv, now, false);
    KhongDotMo(dm.dots, sv, now, true);
  }

  /** While no round is under way for the student, the term is that of the round for the student that starts
      last. */
  lemma ResolvedTermOfLastRound(dm: DanhMuc, db: Db, sv: nat, now: int, i: nat)
    requires sv in dm.sinhViens && LaMoiNhat(dm.dots, dm.sinhViens[sv], now, true, i)
    requires forall d :: d in dm.dots ==> !DotDuocXet(d, dm.sinhViens[sv], now, false)
    ensures ResolveHocKyHienTai(dm, db, dm.sinhViens[sv], now) == Some(dm.dots[i].maHocKy)
  {
    KhongDotMo(dm.dots, dm.sinhViens[sv], now, false);
    DotMoiNhat(dm.dots, dm.sinhViens[sv], now, true, i);
  }

  /** While no round is for the student at all, it is the term with a class that starts last, or without
      classes the term that starts last. */
  lemma ResolvedTermWithoutRounds(dm: DanhMuc, db: Db, sv: nat, now: int, k: nat)
    requires sv in dm.sinhViens && KhongCoDot(dm, dm.sinhViens[sv])
    requires KyMoiNhat(dm, db, k, false) || (KhongCoLop(dm, db) && KyMoiNhat(dm, db, k, true))
    ensures ResolveHocKyHienTai(dm, db, dm.sinhViens[sv], now) == Some(k)
  {
    KhongDotNao(dm, db, dm.sinhViens[sv], now);
    if KyMoiNhat(dm, db, k, false) {
      KyDauTien(dm, db, false, k);
    } else {
      KhongKy(dm, db, SortedKeys(dm.hocKys.Keys));
      KyDauTien(dm, db, true, k);
    }
  }

  lemma {:induction false} KhongDotMo(ds: seq<DotDangKy>, sv: SinhVien, now: int, tatCa: bool)
    requires forall d :: d in ds ==> !DotDuocXet(d, sv, now, tatCa)
    ensures DauTien(CacDot(ds, sv, now, tatCa)) == None
  {
    if ds != [] { KhongDotMo(ds[1..], sv, now, tatCa); }
  }

  lemma {:induction false} KhongKy(dm: DanhMuc, db: Db, ids: seq<nat>)
    requires KhongCoLop(dm, db)
    ensures DauTien(CacKy(dm, db, ids, false)) == None
  {
    if ids != [] {
      KhongKy(dm, db, ids[1..]);
      assert !KyDuocXet(dm, db, ids[0], false);
    }
  }

  lemma DotMoiNhat(ds: seq<DotDangKy>, sv: SinhVien, now: int, tatCa: bool, i: nat)
    requires LaMoiNhat(ds, sv, now, tatCa, i)
    ensures DauTien(CacDot(ds, sv, now, tatCa)) == Some(ds[i])
  {
    var s := StableDescending(CacDot(ds, sv, now, tatCa));
    MoiNhatDauTien(ds, sv, now, tatCa);
    assert DotDuocXet(ds[i], sv, now, tatCa);
    var k: nat :| LaMoiNhat(ds, sv, now, tatCa, k) && ds[k] == s[0].0;
    MoiNhatDuyNhat(ds, sv, now, tatCa, i, k);
  }

  // ---------------------------------------------------------------- is it open?

  lemma KhongNgoaiDot(dm: DanhMuc, db: Db, sv: nat, ma: nat, now: int)
    requires ToanVen(dm, db) && sv in dm.sinhViens && ma in db.lops
    ensures KiemTraDangKy(dm, db, sv, ma, now) == NgoaiDot <==>
            !DangMoDangKy(dm, dm.sinhViens[sv], db.lops[ma].maHocKy, now)
  {
  }

  /** While rounds are under way for the student, the term is that of the newest of them, whatever that
      round allows: another term may be the one in which registration is open. */
  lemma ResolvedTermExact(dm: DanhMuc, db: Db, sv: nat, now: int, i: nat)
    requires sv in dm.sinhViens && LaMoiNhat(dm.dots, dm.sinhViens[sv], now, false, i)
    ensures ResolveHocKyHienTai(dm, db, dm.sinhViens[sv], now) == Some(dm.dots[i].maHocKy)
  {
    DotMoiNhat(dm.dots, dm.sinhViens[sv], now, false, i);
  }

  /** So every suggested registration is refused for the time alone exactly when no round of the newest
      round's own term that is under way allows registering. */
  lemma SuggestedTermRefused(dm: DanhMuc, db: Db, sv: nat, now: int, i: nat, ma: nat)
    requires ToanVen(dm, db) && sv in dm.sinhViens && LaMoiNhat(dm.dots, dm.sinhViens[sv], now, false, i)
    requires ma in db.lops && Some(db.lops[ma].maHocKy) == ResolveHocKyHienTai(dm, db, dm.sinhViens[sv], now)
    ensures KiemTraDangKy(dm, db, sv, ma, now) == NgoaiDot <==>
            !DangMoDangKy(dm, dm.sinhViens[sv], dm.dots[i].maHocKy, now)
  {
    ResolvedTermExact(dm, db, sv, now, i);
    KhongNgoaiDot(dm, db, sv, ma, now);
  }
}
