/** The text signature under which the service recognises a timetable it already has: the pairs
    course:class in course order, joined by commas. */
module KyHieu {
  import opened Collections
  import opened XepLich

  // ---------------------------------------------------------------- decimal numbers

  function ChuSo(d: nat): char
    requires d < 10
  {
    (48 + d) as char
  }

  function So(n: nat): string {
    if n < 10 then [ChuSo(n)] else So(n / 10) + [ChuSo(n % 10)]
  }

  predicate LaSo(s: string) { forall c :: c in s ==> '0' <= c <= '9' }

  function Doc(s: string): int {
    if s == [] then 0 else Doc(s[..|s| - 1]) * 10 + (s[|s| - 1] as int - 48)
  }

  lemma {:induction false} DocSo(n: nat)
    ensures So(n) != [] && LaSo(So(n)) && Doc(So(n)) == n
  {
    if n >= 10 {
      DocSo(n / 10);
      assert So(n)[..|So(n)| - 1] == So(n / 10);
    } else {
      assert So(n)[..0] == [];
    }
  }

  // ---------------------------------------------------------------- the joined text

  function Cap(x: (nat, nat)): string { So(x.0) + [':'] + So(x.1) }

  function Noi(xs: seq<(nat, nat)>): string {
    if xs == [] then [] else if |xs| == 1 then Cap(xs[0]) else Cap(xs[0]) + [','] + Noi(xs[1..])
  }

  /** Every pair followed by a comma. */
  ghost function Dong(xs: seq<(nat, nat)>): string {
    if xs == [] then [] else Cap(xs[0]) + [','] + Dong(xs[1..])
  }

  lemma {:induction false} NoiDong(xs: seq<(nat, nat)>)
    requires xs != []
    ensures Noi(xs) + [','] == Dong(xs) && Noi(xs) != []
  {
    if |xs| == 1 {
      assert Dong(xs[1..]) == [];
    } else {
      NoiDong(xs[1..]);
      assert Cap(xs[0]) + [','] + Noi(xs[1..]) + [','] == Cap(xs[0]) + [','] + (Noi(xs[1..]) + [',']);
    }
  }

  ghost function TruocDau(s: string, c: char): nat {
    if s == [] || s[0] == c then 0 else 1 + TruocDau(s[1..], c)
  }

  lemma {:induction false} TruocDauLa(a: string, r: string, c: char)
    requires c !in a
    ensures TruocDau(a + [c] + r, c) == |a|
  {
    if a != [] {
      assert a[0] in a;
      assert (a + [c] + r)[1..] == a[1..] + [c] + r;
      TruocDauLa(a[1..], r, c);
    } else {
      assert (a + [c] + r)[0] == c;
    }
  }

  /** A text splits in one way at the first occurrence of a separator. */
  lemma CatTaiDau(a: string, r: string, b: string, t: string, c: char)
    requires c !in a && c !in b && a + [c] + r == b + [c] + t
    ensures a == b && r == t
  {
    var s := a + [c] + r;
    TruocDauLa(a, r, c);
    TruocDauLa(b, t, c);
    assert a == s[..|a|] == s[..|b|] == b;
    assert r == s[|a| + 1..] && t == s[|b| + 1..];
  }

  lemma CapDonAnh(x: (nat, nat), y: (nat, nat))
    requires Cap(x) == Cap(y)
    ensures x == y
  {
    DocSo(x.0); DocSo(x.1); DocSo(y.0); DocSo(y.1);
    CatTaiDau(So(x.0), So(x.1), So(y.0), So(y.1), ':');
  }

  lemma KhongPhay(x: (nat, nat))
    ensures ',' !in Cap(x)
  {
    DocSo(x.0); DocSo(x.1);
  }

  lemma {:induction false} DongDonAnh(xs: seq<(nat, nat)>, ys: seq<(nat, nat)>)
    requires Dong(xs) == Dong(ys)
    ensures xs == ys
  {
    if xs != [] && ys != [] {
      KhongPhay(xs[0]);
      KhongPhay(ys[0]);
      CatTaiDau(Cap(xs[0]), Dong(xs[1..]), Cap(ys[0]), Dong(ys[1..]), ',');
      CapDonAnh(xs[0], ys[0]);
      DongDonAnh(xs[1..], ys[1..]);
      assert xs == [xs[0]] + xs[1..] && ys == [ys[0]] + ys[1..];
    }
  }

  // ---------------------------------------------------------------- the signature

  function Muc(chon: BangChon, keys: seq<nat>): seq<(nat, nat)>
    requires forall k :: k in keys ==> k in chon
  {
    if keys == [] then [] else [(keys[0], chon[keys[0]].maLopHocKy)] + Muc(chon, keys[1..])
  }

  function KyHieuToHop(chon: BangChon): string {
    Noi(Muc(chon, SortedKeys(chon.Keys)))
  }

  /** Which class each course has. */
  function LopCuaMon(chon: BangChon): map<nat, nat> {
    map k | k in chon :: chon[k].maLopHocKy
  }

  lemma {:induction false} MucBang(a: BangChon, b: BangChon, ka: seq<nat>, kb: seq<nat>)
    requires (forall k :: k in ka ==> k in a) && (forall k :: k in kb ==> k in b)
    ensures Muc(a, ka) == Muc(b, kb) <==>
            ka == kb && forall k :: k in ka ==> k in b && a[k].maLopHocKy == b[k].maLopHocKy
  {
    if ka != [] && kb != [] {
      MucBang(a, b, ka[1..], kb[1..]);
      MucTach(a, ka);
      MucTach(b, kb);
      assert ka == [ka[0]] + ka[1..] && kb == [kb[0]] + kb[1..];
      var x := ka[0];
      assert x in ka;
      assert forall k :: k in ka <==> k == x || k in ka[1..];
    }
  }

  lemma MucTach(a: BangChon, ka: seq<nat>)
    requires ka != [] && forall k :: k in ka ==> k in a
    ensures Muc(a, ka) != [] && Muc(a, ka)[0] == (ka[0], a[ka[0]].maLopHocKy) && Muc(a, ka)[1..] == Muc(a, ka[1..])
  {
  }

  lemma CungLop(a: BangChon, b: BangChon)
    ensures LopCuaMon(a) == LopCuaMon(b) <==>
            a.Keys == b.Keys && forall k :: k in a.Keys ==> a[k].maLopHocKy == b[k].maLopHocKy
  {
    var la, lb := LopCuaMon(a), LopCuaMon(b);
    assert la.Keys == a.Keys && lb.Keys == b.Keys;
    if la == lb {
      forall k | k in a.Keys ensures a[k].maLopHocKy == b[k].maLopHocKy {
        assert la[k] == lb[k];
      }
    }
  }

  /** Two timetables have the same signature exactly when they give the same courses the same classes. */
  lemma SignatureInjective(a: BangChon, b: BangChon)
    ensures KyHieuToHop(a) == KyHieuToHop(b) <==> LopCuaMon(a) == LopCuaMon(b)
  {
    var ka, kb := SortedKeys(a.Keys), SortedKeys(b.Keys);
    CungLop(a, b);
    MucBang(a, b, ka, kb);
    if KyHieuToHop(a) == KyHieuToHop(b) {
      NoiDonAnh(Muc(a, ka), Muc(b, kb));
      assert a.Keys == b.Keys by {
        assert forall k :: k in a.Keys <==> k in ka;
        assert forall k :: k in b.Keys <==> k in kb;
      }
    }
  }

  lemma NoiDonAnh(xs: seq<(nat, nat)>, ys: seq<(nat, nat)>)
    requires Noi(xs) == Noi(ys)
    ensures xs == ys
  {
    if xs != [] { NoiDong(xs); }
    if ys != [] { NoiDong(ys); }
    if xs != [] && ys != [] { DongDonAnh(xs, ys); }
  }
}
