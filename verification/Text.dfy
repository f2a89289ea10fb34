/** Whitespace as .NET's char.IsWhiteSpace sees it, and String.Trim. */
module Text {
  /** The whitespace characters as ranges. */
  const KHOANG_TRANG: seq<(char, char)> := [
    ('\U{0009}', '\U{000D}'), (' ', ' '), ('\U{0085}', '\U{0085}'), ('\U{00A0}', '\U{00A0}'), ('\U{1680}', '\U{1680}'),
    ('\U{2000}', '\U{200A}'), ('\U{2028}', '\U{2029}'), ('\U{202F}', '\U{202F}'), ('\U{205F}', '\U{205F}'),
    ('\U{3000}', '\U{3000}')]

  predicate TrongKhoang(c: char, ds: seq<(char, char)>) {
    ds != [] && (ds[0].0 <= c <= ds[0].1 || TrongKhoang(c, ds[1..]))
  }

  lemma {:induction false} NgoaiKhoang(c: char, ds: seq<(char, char)>)
    requires forall i :: 0 <= i < |ds| ==> !(ds[i].0 <= c <= ds[i].1)
    ensures !TrongKhoang(c, ds)
  {
    if ds != [] { NgoaiKhoang(c, ds[1..]); }
  }

  predicate IsWhiteSpace(c: char) { TrongKhoang(c, KHOANG_TRANG) }

  /** Characters above U+FFFF are not whitespace. */
  lemma NgoaiDonVi(c: char)
    requires c > '\U{FFFF}'
    ensures !IsWhiteSpace(c)
  {
    NgoaiKhoang(c, KHOANG_TRANG);
  }

  predicate Blank(s: string) { forall c :: c in s ==> IsWhiteSpace(c) }

  function TrimStart(s: string): string {
    if s != [] && IsWhiteSpace(s[0]) then TrimStart(s[1..]) else s
  }

  function TrimEnd(s: string): string {
    if s != [] && IsWhiteSpace(s[|s| - 1]) then TrimEnd(s[..|s| - 1]) else s
  }

  function Trim(s: string): string { TrimEnd(TrimStart(s)) }

  ghost predicate Trimmed(s: string) {
    s != [] ==> !IsWhiteSpace(s[0]) && !IsWhiteSpace(s[|s| - 1])
  }

  lemma {:induction false} TrimStartNghia(s: string)
    ensures var r := TrimStart(s);
            (r != [] ==> !IsWhiteSpace(r[0])) && (r == [] <==> Blank(s)) &&
            (r != [] ==> r[|r| - 1] == s[|s| - 1])
  {
    if s != [] {
      assert s == [s[0]] + s[1..];
      TrimStartNghia(s[1..]);
    }
  }

  lemma {:induction false} TrimEndNghia(s: string)
    requires s != [] ==> !IsWhiteSpace(s[0])
    ensures Trimmed(TrimEnd(s)) && (TrimEnd(s) == [] <==> s == [])
  {
    if s != [] && IsWhiteSpace(s[|s| - 1]) { TrimEndNghia(s[..|s| - 1]); }
  }

  /** Trimming leaves no outer whitespace, empties exactly the blank texts, and is idempotent. */
  lemma TrimNghia(s: string)
    ensures Trimmed(Trim(s)) && (Trim(s) == [] <==> Blank(s)) && Trim(Trim(s)) == Trim(s)
  {
    TrimStartNghia(s);
    TrimEndNghia(TrimStart(s));
    TrimmedKept(Trim(s));
  }

  lemma TrimmedKept(s: string)
    requires Trimmed(s)
    ensures Trim(s) == s && TrimStart(s) == s && TrimEnd(s) == s
  {
  }
}
