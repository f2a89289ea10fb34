/** What the result is, when the budget was not used up. An assignment names, for each course from
    i on, the rank of its class, or None; a course may be left out only when every one of its
    classes clashes with the fixed classes or with those chosen for earlier courses. */
module XepLichToiUu {
  import opened Wrappers
  import opened LichHoc
  import opened Entities
  import opened XepLich
  import opened XepLichAnToan
  import opened XepLichNganSach

  type PhanCong = seq<Option<nat>>

  ghost predicate ChapNhan(b: Bai, i: nat, daChon: BangChon, v: PhanCong)
    requires i <= |b.thuTu|
    decreases |v|
  {
    && |v| == |b.thuTu| - i
    && (v != [] ==>
          match v[0]
          case Some(r) =>
            && r < |b.XepHang(i)| && Hop(b.XepHang(i)[r].0, daChon)
            && ChapNhan(b, i + 1, daChon[b.Ma(i) := b.XepHang(i)[r].0], v[1..])
          case None =>
            && (forall l :: l in b.UngVien(i) ==> !Hop(l, daChon))
            && ChapNhan(b, i + 1, daChon, v[1..]))
  }

  /** The timetable an assignment stands for. */
  ghost function LichCua(b: Bai, i: nat, daChon: BangChon, v: PhanCong): BangChon
    requires i <= |b.thuTu| && ChapNhan(b, i, daChon, v)
    decreases |v|
  {
    if v == [] then daChon
    else
      match v[0]
      case Some(r) => LichCua(b, i + 1, daChon[b.Ma(i) := b.XepHang(i)[r].0], v[1..])
      case None => LichCua(b, i + 1, daChon, v[1..])
  }

  ghost function SoBo(v: PhanCong): nat {
    if v == [] then 0 else (if v[0].None? then 1 else 0) + SoBo(v[1..])
  }

  /** v comes no later than w in the order of preference: equal, or a better rank at the first
      course on which they differ. */
  ghost predicate Lex(v: PhanCong, w: PhanCong) {
    || v == w
    || (v != [] && w != [] && v[0].Some? && w[0].Some? && v[0].value < w[0].value)
    || (v != [] && w != [] && v[0] == w[0] && Lex(v[1..], w[1..]))
  }

  ghost predicate Troi(v: PhanCong, w: PhanCong) {
    SoBo(v) <= SoBo(w) && (SoBo(w) == 0 ==> Lex(v, w))
  }

  ghost predicate DatDuoc(b: Bai, i: nat, daChon: BangChon, v: PhanCong, kq: KetQua)
    requires i <= |b.thuTu|
  {
    ChapNhan(b, i, daChon, v) && LichCua(b, i, daChon, v) == kq.chon && SoBo(v) == |kq.khongXepDuoc|
  }

  // ---------------------------------------------------------------- restricted optimality

  lemma {:induction false} TotNhatNone(b: Bai, i: nat, daChon: BangChon, k: nat)
    requires i < |b.thuTu| && k <= |b.XepHang(i)|
    ensures TotNhat(b, i, daChon, k).None? <==> forall r :: 0 <= r < k ==> !Hop(b.XepHang(i)[r].0, daChon)
  {
    if k > 0 { TotNhatNone(b, i, daChon, k - 1); }
  }

  /** A course none of whose classes is compatible is left out by every admissible assignment. */
  lemma BoQuaTroi(b: Bai, i: nat, daChon: BangChon, u: PhanCong, w: PhanCong)
    requires i < |b.thuTu| && ChapNhan(b, i, daChon, w)
    requires forall r :: 0 <= r < |b.XepHang(i)| ==> !Hop(b.XepHang(i)[r].0, daChon)
    requires forall x: PhanCong | ChapNhan(b, i + 1, daChon, x) :: Troi(u, x)
    ensures Troi([None] + u, w)
  {
    var sau := w[1..];
    assert w[0].None? && ChapNhan(b, i + 1, daChon, sau);
    assert Troi(u, sau);
    assert ([None] + u)[1..] == u;
  }

  /** The reference result is an admissible assignment that leaves out the fewest courses, and the
      first complete one in the order of preference if any is complete. */
  lemma {:induction false} GiaiToiUu(b: Bai, i: nat, daChon: BangChon) returns (v: PhanCong)
    requires i <= |b.thuTu|
    ensures DatDuoc(b, i, daChon, v, Giai(b, i, daChon))
    ensures forall w: PhanCong | ChapNhan(b, i, daChon, w) :: Troi(v, w)
    decreases |b.thuTu| - i, 1, 0
  {
    if i == |b.thuTu| {
      v := [];
    } else {
      RankingSorts(b, i);
      TotNhatNone(b, i, daChon, |b.XepHang(i)|);
      if TotNhat(b, i, daChon, |b.XepHang(i)|).None? {
        var u := GiaiToiUu(b, i + 1, daChon);
        v := [None] + u;
        assert v[1..] == u;
        forall w: PhanCong | ChapNhan(b, i, daChon, w) ensures Troi(v, w) { BoQuaTroi(b, i, daChon, u, w); }
      } else {
        v := TotNhatToiUu(b, i, daChon, |b.XepHang(i)|);
      }
    }
  }

  lemma {:induction false} NhanhToiUu(b: Bai, i: nat, daChon: BangChon, r: nat) returns (v: PhanCong)
    requires i < |b.thuTu| && r < |b.XepHang(i)| && Hop(b.XepHang(i)[r].0, daChon)
    ensures v != [] && v[0] == Some(r)
    ensures DatDuoc(b, i, daChon, v, Nhanh(b, i, daChon, r))
    ensures TroiNhanh(b, i, daChon, r, v)
    decreases |b.thuTu| - i, 0, 0
  {
    var u := GiaiToiUu(b, i + 1, daChon[b.Ma(i) := b.XepHang(i)[r].0]);
    v := [Some(r)] + u;
    assert v[1..] == u;
    forall w: PhanCong | ChapNhan(b, i, daChon, w) && w[0] == Some(r) ensures Troi(v, w) {
      assert Troi(u, w[1..]);
    }
  }

  /** What replaces what at one more class. */
  lemma TotNhatBuoc(b: Bai, i: nat, daChon: BangChon, k: nat)
    requires i < |b.thuTu| && k < |b.XepHang(i)|
    ensures var truoc := TotNhat(b, i, daChon, k); var moi := Nhanh(b, i, daChon, k);
            TotNhat(b, i, daChon, k + 1) ==
            if !Hop(b.XepHang(i)[k].0, daChon) then truoc
            else if truoc.Some? && (truoc.value.khongXepDuoc == [] || !TotHon(moi, truoc.value)) then truoc
            else Some(moi)
  {
  }

  /** v is at least as good as every admissible assignment that takes one of the first k classes. */
  ghost predicate HonMoiPhanCong(b: Bai, i: nat, daChon: BangChon, k: nat, v: PhanCong)
    requires i < |b.thuTu| && k <= |b.XepHang(i)|
  {
    forall w: PhanCong | ChapNhan(b, i, daChon, w) && w[0].Some? && w[0].value < k :: Troi(v, w)
  }

  ghost predicate TroiNhanh(b: Bai, i: nat, daChon: BangChon, k: nat, u: PhanCong)
    requires i < |b.thuTu| && k < |b.XepHang(i)|
  {
    forall w: PhanCong | ChapNhan(b, i, daChon, w) && w[0] == Some(k) :: Troi(u, w)
  }

  lemma GiuPhanCong(b: Bai, i: nat, daChon: BangChon, k: nat, t: PhanCong, u: PhanCong)
    requires i < |b.thuTu| && k < |b.XepHang(i)|
    requires HonMoiPhanCong(b, i, daChon, k, t) && TroiNhanh(b, i, daChon, k, u)
    requires t != [] && t[0].Some? && t[0].value < k && SoBo(t) <= SoBo(u)
    ensures HonMoiPhanCong(b, i, daChon, k + 1, t)
  {
    forall w: PhanCong | ChapNhan(b, i, daChon, w) && w[0].Some? && w[0].value < k + 1 ensures Troi(t, w) {
      if w[0].value == k { assert w[0] == Some(k) && Troi(u, w); }
    }
  }

  lemma DoiPhanCong(b: Bai, i: nat, daChon: BangChon, k: nat, t: PhanCong, u: PhanCong)
    requires i < |b.thuTu| && k < |b.XepHang(i)|
    requires HonMoiPhanCong(b, i, daChon, k, t) && TroiNhanh(b, i, daChon, k, u)
    requires 0 < SoBo(t) && SoBo(u) <= SoBo(t)
    ensures HonMoiPhanCong(b, i, daChon, k + 1, u)
  {
    forall w: PhanCong | ChapNhan(b, i, daChon, w) && w[0].Some? && w[0].value < k + 1 ensures Troi(u, w) {
      if w[0].value < k { assert Troi(t, w); } else { assert w[0] == Some(k); }
    }
  }

  /** No compatible class stood before rank k. */
  lemma DauPhanCong(b: Bai, i: nat, daChon: BangChon, k: nat, u: PhanCong)
    requires i < |b.thuTu| && k < |b.XepHang(i)|
    requires TotNhat(b, i, daChon, k).None? && TroiNhanh(b, i, daChon, k, u)
    ensures HonMoiPhanCong(b, i, daChon, k + 1, u)
  {
    TotNhatNone(b, i, daChon, k);
  }

  lemma BoPhanCong(b: Bai, i: nat, daChon: BangChon, k: nat, t: PhanCong)
    requires i < |b.thuTu| && k < |b.XepHang(i)|
    requires !Hop(b.XepHang(i)[k].0, daChon) && HonMoiPhanCong(b, i, daChon, k, t)
    ensures HonMoiPhanCong(b, i, daChon, k + 1, t)
  {
  }

  /** The better of the best assignment so far and that of one more class. */
  lemma ChonPhanCong(b: Bai, i: nat, daChon: BangChon, k: nat, t: PhanCong, u: PhanCong) returns (v: PhanCong)
    requires i < |b.thuTu| && k < |b.XepHang(i)| && Hop(b.XepHang(i)[k].0, daChon)
    requires TotNhat(b, i, daChon, k).Some? && DatDuoc(b, i, daChon, t, TotNhat(b, i, daChon, k).value)
    requires DatDuoc(b, i, daChon, u, Nhanh(b, i, daChon, k))
    requires HonMoiPhanCong(b, i, daChon, k, t) && TroiNhanh(b, i, daChon, k, u)
    requires t != [] && t[0].Some? && t[0].value < k && u != [] && u[0] == Some(k)
    ensures v != [] && v[0].Some? && v[0].value < k + 1
    ensures TotNhat(b, i, daChon, k + 1).Some? && DatDuoc(b, i, daChon, v, TotNhat(b, i, daChon, k + 1).value)
    ensures HonMoiPhanCong(b, i, daChon, k + 1, v)
  {
    var truoc := TotNhat(b, i, daChon, k).value;
    TotNhatBuoc(b, i, daChon, k);
    if truoc.khongXepDuoc == [] || !TotHon(Nhanh(b, i, daChon, k), truoc) {
      v := t;
      GiuPhanCong(b, i, daChon, k, t, u);
    } else {
      v := u;
      DoiPhanCong(b, i, daChon, k, t, u);
    }
  }

  lemma {:induction false} TotNhatToiUu(b: Bai, i: nat, daChon: BangChon, k: nat) returns (v: PhanCong)
    requires i < |b.thuTu| && k <= |b.XepHang(i)| && TotNhat(b, i, daChon, k).Some?
    ensures v != [] && v[0].Some? && v[0].value < k
    ensures DatDuoc(b, i, daChon, v, TotNhat(b, i, daChon, k).value)
    ensures HonMoiPhanCong(b, i, daChon, k, v)
    decreases |b.thuTu| - i, 0, k
  {
    TotNhatBuoc(b, i, daChon, k - 1);
    if !Hop(b.XepHang(i)[k - 1].0, daChon) {
      v := TotNhatToiUu(b, i, daChon, k - 1);
      BoPhanCong(b, i, daChon, k - 1, v);
    } else {
      var u := NhanhToiUu(b, i, daChon, k - 1);
      if TotNhat(b, i, daChon, k - 1).None? {
        v := u;
        DauPhanCong(b, i, daChon, k - 1, u);
      } else {
        var t := TotNhatToiUu(b, i, daChon, k - 1);
        v := ChonPhanCong(b, i, daChon, k - 1, t, u);
      }
    }
  }

  /** The search itself, within its budget. */
  lemma RestrictedOptimal(b: Bai, i: nat, daChon: BangChon, n: int) returns (v: PhanCong)
    requires i <= |b.thuTu| && Tim(b, i, daChon, n).soNut <= GIOI_HAN_NUT
    ensures DatDuoc(b, i, daChon, v, Tim(b, i, daChon, n).kq)
    ensures forall w: PhanCong | ChapNhan(b, i, daChon, w) :: SoBo(v) <= SoBo(w) && (SoBo(w) == 0 ==> Lex(v, w))
  {
    WithinBudget(b, i, daChon, n);
    v := GiaiToiUu(b, i, daChon);
    forall w: PhanCong | ChapNhan(b, i, daChon, w) ensures SoBo(v) <= SoBo(w) && (SoBo(w) == 0 ==> Lex(v, w)) {
      assert Troi(v, w);
    }
  }

  // ---------------------------------------------------------------- complete timetables

  /** tt is a complete timetable: the fixed classes, and for each course from i on an offered class
      that clashes with no other. */
  ghost predicate DayDu(b: Bai, i: nat, daChon: BangChon, tt: BangChon)
    requires i <= |b.thuTu|
  {
    AnToan(b, i, daChon, tt) && forall j :: i <= j < |b.thuTu| ==> b.Ma(j) in tt
  }

  /** The rank of a class: its first place in the list. */
  ghost function Hang(ds: seq<(LopHoc, int)>, l: LopHoc): (r: nat)
    ensures (exists k :: 0 <= k < |ds| && ds[k].0 == l) ==> r < |ds| && ds[r].0 == l
    ensures forall k :: 0 <= k < |ds| && ds[k].0 == l ==> r <= k
  {
    if ds == [] || ds[0].0 == l then 0 else 1 + Hang(ds[1..], l)
  }

  ghost function HangCua(b: Bai, i: nat, tt: BangChon): (v: PhanCong)
    requires i <= |b.thuTu| && forall j :: i <= j < |b.thuTu| ==> b.Ma(j) in tt
    ensures |v| == |b.thuTu| - i && forall j :: 0 <= j < |v| ==> v[j].Some?
    decreases |b.thuTu| - i
  {
    if i == |b.thuTu| then [] else [Some(Hang(b.XepHang(i), tt[b.Ma(i)]))] + HangCua(b, i + 1, tt)
  }

  lemma {:induction false} HangCuaChapNhan(b: Bai, i: nat, daChon: BangChon, tt: BangChon)
    requires i <= |b.thuTu| && Rieng(b, i, daChon) && DayDu(b, i, daChon, tt)
    ensures ChapNhan(b, i, daChon, HangCua(b, i, tt)) && SoBo(HangCua(b, i, tt)) == 0
    decreases |b.thuTu| - i
  {
    if i < |b.thuTu| {
      var d' := daChon[b.Ma(i) := tt[b.Ma(i)]];
      DayDuTiep(b, i, daChon, tt);
      HangCuaChapNhan(b, i + 1, d', tt);
      assert HangCua(b, i, tt)[1..] == HangCua(b, i + 1, tt);
    }
  }

  lemma DayDuTiep(b: Bai, i: nat, daChon: BangChon, tt: BangChon)
    requires i < |b.thuTu| && Rieng(b, i, daChon) && DayDu(b, i, daChon, tt)
    ensures var lop := tt[b.Ma(i)];
            && Hop(lop, daChon)
            && (var r := Hang(b.XepHang(i), lop); r < |b.XepHang(i)| && b.XepHang(i)[r].0 == lop)
            && Rieng(b, i + 1, daChon[b.Ma(i) := lop])
            && DayDu(b, i + 1, daChon[b.Ma(i) := lop], tt)
  {
    var lop := tt[b.Ma(i)];
    RankingSorts(b, i);
    assert LopDung(b, i, tt);
    forall k | k in daChon ensures !TrungNhau(lop.lichHocs, daChon[k].lichHocs) {
      assert k in tt && b.thuTu[i].maMonHoc !in daChon;
    }
    AnToanTiep(b, i, daChon, tt);
  }

  lemma AnToanTiep(b: Bai, i: nat, daChon: BangChon, tt: BangChon)
    requires i < |b.thuTu| && b.Ma(i) in tt && AnToan(b, i, daChon, tt)
    ensures AnToan(b, i + 1, daChon[b.Ma(i) := tt[b.Ma(i)]], tt)
  {
    forall k | k in tt ensures k in daChon.Keys + {b.Ma(i)} + MaTu(b, i + 1) {
      if k !in daChon && k != b.Ma(i) {
        var j :| i <= j < |b.thuTu| && b.thuTu[j].maMonHoc == k;
        assert j >= i + 1;
      }
    }
  }

  /** A complete assignment gives every course a class and keeps what was chosen. */
  lemma {:induction false} LichCuaDayDu(b: Bai, i: nat, daChon: BangChon, v: PhanCong)
    requires i <= |b.thuTu| && Rieng(b, i, daChon) && ChapNhan(b, i, daChon, v) && SoBo(v) == 0
    ensures var tt := LichCua(b, i, daChon, v);
            && (forall k :: k in daChon ==> k in tt && tt[k] == daChon[k])
            && (forall j :: i <= j < |b.thuTu| ==> b.Ma(j) in tt)
    decreases |v|
  {
    if v != [] {
      var lop := b.XepHang(i)[v[0].value].0;
      var d' := daChon[b.Ma(i) := lop];
      RiengTiep(b, i, daChon, lop);
      LichCuaDayDu(b, i + 1, d', v[1..]);
      assert b.Ma(i) in d' && b.thuTu[i].maMonHoc !in daChon;
      forall k | k in daChon ensures k in LichCua(b, i, daChon, v) && LichCua(b, i, daChon, v)[k] == daChon[k] {
        assert k in d';
      }
    }
  }

  /** The assignment that produced a complete timetable never ranks a class before its first place. */
  lemma {:induction false} HangCuaNhoNhat(b: Bai, i: nat, daChon: BangChon, v: PhanCong)
    requires i <= |b.thuTu| && Rieng(b, i, daChon) && ChapNhan(b, i, daChon, v) && SoBo(v) == 0
    ensures var tt := LichCua(b, i, daChon, v);
            && (forall j :: i <= j < |b.thuTu| ==> b.Ma(j) in tt)
            && (forall j :: 0 <= j < |v| ==> v[j].Some? && HangCua(b, i, tt)[j].value <= v[j].value)
    decreases |v|
  {
    LichCuaDayDu(b, i, daChon, v);
    if v != [] {
      var lop := b.XepHang(i)[v[0].value].0;
      var d' := daChon[b.Ma(i) := lop];
      RiengTiep(b, i, daChon, lop);
      HangCuaNhoNhat(b, i + 1, d', v[1..]);
      LichCuaDayDu(b, i + 1, d', v[1..]);
      var tt := LichCua(b, i, daChon, v);
      assert b.Ma(i) in d' && tt[b.Ma(i)] == lop;
      var h := HangCua(b, i, tt);
      assert h[1..] == HangCua(b, i + 1, tt);
      forall j | 0 <= j < |v| ensures v[j].Some? && h[j].value <= v[j].value {
        if j > 0 { assert v[j] == v[1..][j - 1] && h[j] == h[1..][j - 1]; }
      }
    }
  }

  lemma {:induction false} LexVaNhoHon(v: PhanCong, u: PhanCong)
    requires |v| == |u| && Lex(v, u)
    requires forall j :: 0 <= j < |v| ==> v[j].Some? && u[j].Some? && u[j].value <= v[j].value
    ensures v == u
  {
    if v != [] {
      forall j | 0 <= j < |v[1..]| ensures v[1..][j].Some? && u[1..][j].Some? && u[1..][j].value <= v[1..][j].value {
        assert v[1..][j] == v[j + 1] && u[1..][j] == u[j + 1];
      }
      LexVaNhoHon(v[1..], u[1..]);
      assert v == [v[0]] + v[1..] && u == [u[0]] + u[1..];
    }
  }

  /** Within the budget, if some complete timetable extends the fixed classes, the search returns a
      complete one, and in the order of preference it comes no later than any other. */
  lemma FirstCompleteTimetable(b: Bai, i: nat, daChon: BangChon, n: int, tt: BangChon)
    requires i <= |b.thuTu| && Rieng(b, i, daChon) && DayDu(b, i, daChon, tt)
    requires Tim(b, i, daChon, n).soNut <= GIOI_HAN_NUT
    ensures var kq := Tim(b, i, daChon, n).kq;
            && kq.khongXepDuoc == [] && DayDu(b, i, daChon, kq.chon)
            && Lex(HangCua(b, i, kq.chon), HangCua(b, i, tt))
  {
    var kq := Tim(b, i, daChon, n).kq;
    var v := RestrictedOptimal(b, i, daChon, n);
    HangCuaChapNhan(b, i, daChon, tt);
    TimDung(b, i, daChon, n);
    LichCuaDayDu(b, i, daChon, v);
    HangCuaNhoNhat(b, i, daChon, v);
    var u := HangCua(b, i, kq.chon);
    HangCuaChapNhan(b, i, daChon, kq.chon);
    LexVaNhoHon(v, u);
  }

  // ---------------------------------------------------------------- nothing more fits

  lemma {:induction false} BoVanTrung(b: Bai, i: nat, daChon: BangChon, v: PhanCong, j: nat)
    requires i <= j < |b.thuTu| && Rieng(b, i, daChon) && ChapNhan(b, i, daChon, v)
    ensures var tt := LichCua(b, i, daChon, v);
            && (forall k :: k in daChon ==> k in tt && tt[k] == daChon[k])
            && (b.Ma(j) !in tt ==> forall l :: l in b.UngVien(j) ==> !Hop(l, tt))
    decreases |v|
  {
    var tt := LichCua(b, i, daChon, v);
    var d' := if v[0].Some? then daChon[b.Ma(i) := b.XepHang(i)[v[0].value].0] else daChon;
    if v[0].Some? { RiengTiep(b, i, daChon, b.XepHang(i)[v[0].value].0); }
    assert b.thuTu[i].maMonHoc !in daChon;
    if i + 1 == |b.thuTu| {
      assert v[1..] == [];
      assert LichCua(b, i + 1, d', v[1..]) == d';
    } else {
      BoVanTrung(b, i + 1, d', v[1..], if j == i then i + 1 else j);
    }
    forall k | k in daChon ensures k in tt && tt[k] == daChon[k] {
      assert k in d';
    }
    if j == i && v[0].Some? { assert b.Ma(i) in d'; }
  }

  /** Within the budget no class the run was given of an unplaced course could be added to the result. */
  lemma NothingFits(b: Bai, i: nat, daChon: BangChon, n: int, j: nat)
    requires i <= j < |b.thuTu| && Rieng(b, i, daChon)
    requires Tim(b, i, daChon, n).soNut <= GIOI_HAN_NUT
    ensures var kq := Tim(b, i, daChon, n).kq;
            b.Ma(j) !in kq.chon ==> forall l :: l in b.UngVien(j) ==> !Hop(l, kq.chon)
  {
    var v := RestrictedOptimal(b, i, daChon, n);
    BoVanTrung(b, i, daChon, v, j);
  }

  /** The unplaced courses with the true reasons: no class, or only clashing ones. */
  ghost function LyDoThat(b: Bai, i: nat, chon: BangChon): seq<MonKhongXep>
    requires i <= |b.thuTu|
    decreases |b.thuTu| - i
  {
    if i == |b.thuTu| then []
    else
      (if b.Ma(i) in chon then []
       else [MonKhongXep(b.thuTu[i].tenMonHoc, if b.UngVien(i) == [] then KhongConLop else TrungGio)]) +
      LyDoThat(b, i + 1, chon)
  }

  ghost predicate LyDoDung(b: Bai, i: nat, daChon: BangChon, kq: KetQua)
    requires i <= |b.thuTu|
  {
    && daChon.Keys <= kq.chon.Keys <= daChon.Keys + MaTu(b, i)
    && kq.khongXepDuoc == LyDoThat(b, i, kq.chon)
  }

  lemma {:induction false} GiaiLyDo(b: Bai, i: nat, daChon: BangChon)
    requires i <= |b.thuTu| && Rieng(b, i, daChon)
    ensures LyDoDung(b, i, daChon, Giai(b, i, daChon))
    decreases |b.thuTu| - i, 1, 0
  {
    if i < |b.thuTu| {
      var k := |b.XepHang(i)|;
      if b.UngVien(i) == [] || TotNhat(b, i, daChon, k).None? {
        assert Rieng(b, i + 1, daChon);
        GiaiLyDo(b, i + 1, daChon);
        assert b.thuTu[i].maMonHoc !in daChon && b.thuTu[i].maMonHoc !in MaTu(b, i + 1);
      } else {
        TotNhatLyDo(b, i, daChon, k);
      }
    }
  }

  lemma {:induction false} NhanhLyDo(b: Bai, i: nat, daChon: BangChon, r: nat)
    requires i < |b.thuTu| && r < |b.XepHang(i)| && Rieng(b, i, daChon)
    ensures LyDoDung(b, i, daChon, Nhanh(b, i, daChon, r))
    decreases |b.thuTu| - i, 0, 0
  {
    var lop, diem := b.XepHang(i)[r].0, b.XepHang(i)[r].1;
    var d' := daChon[b.Ma(i) := lop];
    RiengTiep(b, i, daChon, lop);
    GiaiLyDo(b, i + 1, d');
    ThemMonLyDo(b, i, daChon, lop, diem, Giai(b, i + 1, d'));
  }

  lemma ThemMonLyDo(b: Bai, i: nat, daChon: BangChon, lop: LopHoc, diem: int, kq: KetQua)
    requires i < |b.thuTu| && b.Ma(i) !in daChon && LyDoDung(b, i + 1, daChon[b.Ma(i) := lop], kq)
    ensures LyDoDung(b, i, daChon, CongDiem(kq, diem))
  {
    assert daChon[b.Ma(i) := lop].Keys == daChon.Keys + {b.Ma(i)};
    assert b.Ma(i) in MaTu(b, i);
  }

  lemma {:induction false} TotNhatLyDo(b: Bai, i: nat, daChon: BangChon, k: nat)
    requires i < |b.thuTu| && k <= |b.XepHang(i)| && Rieng(b, i, daChon) && TotNhat(b, i, daChon, k).Some?
    ensures LyDoDung(b, i, daChon, TotNhat(b, i, daChon, k).value)
    decreases |b.thuTu| - i, 0, k
  {
    if TotNhat(b, i, daChon, k - 1).Some? { TotNhatLyDo(b, i, daChon, k - 1); }
    NhanhLyDo(b, i, daChon, k - 1);
  }

  /** Within the budget every stated reason is the true one of the classes the run was given. */
  lemma ReasonsTrue(b: Bai, i: nat, daChon: BangChon, n: int)
    requires i <= |b.thuTu| && Rieng(b, i, daChon)
    requires Tim(b, i, daChon, n).soNut <= GIOI_HAN_NUT
    ensures var kq := Tim(b, i, daChon, n).kq; kq.khongXepDuoc == LyDoThat(b, i, kq.chon)
  {
    WithinBudget(b, i, daChon, n);
    GiaiLyDo(b, i, daChon);
  }

  // ---------------------------------------------------------------- the choice at one course

  /** Branch kr of rank r is taken over branch ks of rank s: fewer courses left out; or as many, and
      among complete branches the better rank, among others the higher total, then the better rank. */
  ghost predicate KhongThua(kr: KetQua, r: nat, ks: KetQua, s: nat) {
    || |kr.khongXepDuoc| < |ks.khongXepDuoc|
    || (|kr.khongXepDuoc| == |ks.khongXepDuoc| &&
        (if kr.khongXepDuoc == [] then r <= s
         else kr.tongDiem > ks.tongDiem || (kr.tongDiem == ks.tongDiem && r <= s)))
  }

  /** Among the first k ranked classes, rank r is compatible and its branch is taken over every other. */
  ghost predicate HonMoi(b: Bai, i: nat, daChon: BangChon, k: nat, r: nat)
    requires i < |b.thuTu| && k <= |b.XepHang(i)|
  {
    && r < k && Hop(b.XepHang(i)[r].0, daChon)
    && forall s :: 0 <= s < k && Hop(b.XepHang(i)[s].0, daChon) ==>
         KhongThua(Nhanh(b, i, daChon, r), r, Nhanh(b, i, daChon, s), s)
  }

  /** A better later branch beats what the earlier one beat. */
  lemma KhongThuaTiep(kt: KetQua, t: nat, kr: KetQua, r: nat, ks: KetQua, s: nat)
    requires KhongThua(kt, t, ks, s) && TotHon(kr, kt) && s <= r
    requires kt.khongXepDuoc != []
    ensures KhongThua(kr, r, ks, s)
  {
  }

  lemma HonMoiGiu(b: Bai, i: nat, daChon: BangChon, k: nat, t: nat)
    requires i < |b.thuTu| && k < |b.XepHang(i)| && HonMoi(b, i, daChon, k, t)
    requires !Hop(b.XepHang(i)[k].0, daChon) || Nhanh(b, i, daChon, t).khongXepDuoc == [] ||
             !TotHon(Nhanh(b, i, daChon, k), Nhanh(b, i, daChon, t))
    ensures HonMoi(b, i, daChon, k + 1, t)
  {
  }

  lemma HonMoiDoi(b: Bai, i: nat, daChon: BangChon, k: nat, t: nat)
    requires i < |b.thuTu| && k < |b.XepHang(i)| && HonMoi(b, i, daChon, k, t)
    requires Hop(b.XepHang(i)[k].0, daChon) && Nhanh(b, i, daChon, t).khongXepDuoc != []
    requires TotHon(Nhanh(b, i, daChon, k), Nhanh(b, i, daChon, t))
    ensures HonMoi(b, i, daChon, k + 1, k)
  {
    forall s | 0 <= s < k && Hop(b.XepHang(i)[s].0, daChon)
      ensures KhongThua(Nhanh(b, i, daChon, k), k, Nhanh(b, i, daChon, s), s)
    {
      KhongThuaTiep(Nhanh(b, i, daChon, t), t, Nhanh(b, i, daChon, k), k, Nhanh(b, i, daChon, s), s);
    }
  }

  lemma DauTien(b: Bai, i: nat, daChon: BangChon, k: nat)
    requires i < |b.thuTu| && k < |b.XepHang(i)| && TotNhat(b, i, daChon, k).None?
    requires Hop(b.XepHang(i)[k].0, daChon)
    ensures HonMoi(b, i, daChon, k + 1, k)
  {
    TotNhatNone(b, i, daChon, k);
  }

  /** Among the compatible classes of a course the result takes the one whose branch leaves out the
      fewest courses. Among complete branches it takes the best ranked; among equally incomplete
      ones the highest total, then the best ranked. */
  lemma {:induction false} ChoiceAtCourse(b: Bai, i: nat, daChon: BangChon, k: nat) returns (r: nat)
    requires i < |b.thuTu| && k <= |b.XepHang(i)| && TotNhat(b, i, daChon, k).Some?
    ensures HonMoi(b, i, daChon, k, r)
    ensures TotNhat(b, i, daChon, k) == Some(Nhanh(b, i, daChon, r))
    decreases k
  {
    TotNhatBuoc(b, i, daChon, k - 1);
    if TotNhat(b, i, daChon, k - 1).None? {
      r := k - 1;
      DauTien(b, i, daChon, k - 1);
    } else {
      var t := ChoiceAtCourse(b, i, daChon, k - 1);
      var truoc, moi := Nhanh(b, i, daChon, t), Nhanh(b, i, daChon, k - 1);
      if Hop(b.XepHang(i)[k - 1].0, daChon) && truoc.khongXepDuoc != [] && TotHon(moi, truoc) {
        r := k - 1;
        HonMoiDoi(b, i, daChon, k - 1, t);
      } else {
        r := t;
        HonMoiGiu(b, i, daChon, k - 1, t);
      }
    }
  }

  lemma {:induction false} LichCuaMoRong(b: Bai, i: nat, daChon: BangChon, v: PhanCong, k: nat)
    requires i <= |b.thuTu| && Rieng(b, i, daChon) && ChapNhan(b, i, daChon, v) && k in daChon
    ensures k in LichCua(b, i, daChon, v) && LichCua(b, i, daChon, v)[k] == daChon[k]
    decreases |v|
  {
    if v != [] {
      match v[0]
      case Some(r) =>
        var lop := b.XepHang(i)[r].0;
        RiengTiep(b, i, daChon, lop);
        LichCuaMoRong(b, i + 1, daChon[b.Ma(i) := lop], v[1..], k);
      case None =>
        LichCuaMoRong(b, i + 1, daChon, v[1..], k);
    }
  }

  /** Within the budget a course that still has a compatible class gets the class of rank r whose
      branch is taken over those of all its other compatible classes, and that branch is the result. */
  lemma ChoiceWithinBudget(b: Bai, i: nat, daChon: BangChon, n: int) returns (r: nat)
    requires i < |b.thuTu| && Rieng(b, i, daChon) && Tim(b, i, daChon, n).soNut <= GIOI_HAN_NUT
    requires exists l :: l in b.UngVien(i) && Hop(l, daChon)
    ensures HonMoi(b, i, daChon, |b.XepHang(i)|, r)
    ensures var kq := Tim(b, i, daChon, n).kq;
            kq == Nhanh(b, i, daChon, r) && b.Ma(i) in kq.chon && kq.chon[b.Ma(i)] == b.XepHang(i)[r].0
  {
    var m := |b.XepHang(i)|;
    RankingSorts(b, i);
    TotNhatNone(b, i, daChon, m);
    r := ChoiceAtCourse(b, i, daChon, m);
    WithinBudget(b, i, daChon, n);
    var lop := b.XepHang(i)[r].0;
    var d' := daChon[b.Ma(i) := lop];
    RiengTiep(b, i, daChon, lop);
    var v := GiaiToiUu(b, i + 1, d');
    LichCuaMoRong(b, i + 1, d', v, b.Ma(i));
  }
}
