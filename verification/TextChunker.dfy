/** Splitting page texts into overlapping chunks for retrieval. A char stands for one UTF-16 unit. The
    surrogate units, which char does not have, are stood for by characters above U+FFFF, which no unit
    uses: nothing here tells one of them from another (see Text.NgoaiDonVi). */
module TextChunker {
  import opened Collections
  import opened Math
  import opened Text

  const CHUNK_SIZE := 900
  const OVERLAP := 150

  datatype ChunkResult = ChunkResult(trang: nat, noiDung: string)

  // ---------------------------------------------------------------- whitespace normaliser

  /** The characters appended for s, `sau` being the flag that the last one was whitespace. */
  function GopTrong(s: string, sau: bool): string {
    if s == [] then []
    else if !IsWhiteSpace(s[0]) then [s[0]] + GopTrong(s[1..], false)
    else if s[0] == '\n' then ['\n'] + GopTrong(s[1..], true)
    else if !sau then [' '] + GopTrong(s[1..], true)
    else GopTrong(s[1..], true)
  }

  function ChuanHoa(s: string): string { Trim(GopTrong(s, false)) }

  method ChuanHoaKhoangTrang(s: string) returns (r: string)
    ensures r == ChuanHoa(s)
  {
    var sb := "";
    var lastWasSpace := false;
    for i := 0 to |s|
      invariant sb + GopTrong(s[i..], lastWasSpace) == GopTrong(s, false)
    {
      var c := s[i];
      assert s[i..][0] == c && s[i..][1..] == s[i + 1..];
      if IsWhiteSpace(c) {
        if c == '\n' {
          AppendAssociative(sb, ['\n'], GopTrong(s[i + 1..], true));
          sb := sb + ['\n'];
          lastWasSpace := true;
        } else if !lastWasSpace {
          AppendAssociative(sb, [' '], GopTrong(s[i + 1..], true));
          sb := sb + [' '];
          lastWasSpace := true;
        }
      } else {
        AppendAssociative(sb, [c], GopTrong(s[i + 1..], false));
        sb := sb + [c];
        lastWasSpace := false;
      }
    }
    assert s[|s|..] == [];
    assert sb + [] == sb;
    r := Trim(sb);
  }

  /** The text without its whitespace. */
  function Chu(s: string): string {
    if s == [] then [] else (if IsWhiteSpace(s[0]) then [] else [s[0]]) + Chu(s[1..])
  }

  /** Whitespace is single spaces and newlines, and after whitespace only a newline may follow. */
  ghost predicate DangGop(s: string) {
    && (forall i :: 0 <= i < |s| && IsWhiteSpace(s[i]) ==> s[i] == ' ' || s[i] == '\n')
    && (forall i, j :: 0 <= i < j < |s| && j == i + 1 && IsWhiteSpace(s[i]) && IsWhiteSpace(s[j]) ==> s[j] == '\n')
  }

  ghost predicate DauHop(s: string, sau: bool) {
    sau && s != [] && IsWhiteSpace(s[0]) ==> s[0] == '\n'
  }

  lemma {:induction false} GopTrongNghia(s: string, sau: bool)
    ensures DangGop(GopTrong(s, sau)) && DauHop(GopTrong(s, sau), sau)
    ensures Chu(GopTrong(s, sau)) == Chu(s)
  {
    if s != [] {
      var w := IsWhiteSpace(s[0]);
      var sau' := if w then true else false;
      GopTrongNghia(s[1..], sau');
      var r := GopTrong(s, sau);
      if !w || s[0] == '\n' || !sau {
        assert r[1..] == GopTrong(s[1..], sau');
        assert forall i :: 0 < i < |r| ==> r[i] == r[1..][i - 1];
      }
    }
  }

  lemma {:induction false} GopTrongGiu(s: string, sau: bool)
    requires DangGop(s) && DauHop(s, sau)
    ensures GopTrong(s, sau) == s
  {
    if s != [] {
      assert forall i :: 0 <= i < |s[1..]| ==> s[1..][i] == s[i + 1];
      GopTrongGiu(s[1..], IsWhiteSpace(s[0]));
      assert s == [s[0]] + s[1..];
    }
  }

  lemma {:induction false} ChuNoi(a: string, b: string)
    ensures Chu(a + b) == Chu(a) + Chu(b)
  {
    if a == [] {
      assert a + b == b;
    } else {
      assert (a + b)[1..] == a[1..] + b;
      ChuNoi(a[1..], b);
    }
  }

  lemma {:induction false} TrimStartGiu(s: string)
    requires DangGop(s)
    ensures DangGop(TrimStart(s)) && Chu(TrimStart(s)) == Chu(s)
  {
    if s != [] && IsWhiteSpace(s[0]) {
      assert forall i :: 0 <= i < |s[1..]| ==> s[1..][i] == s[i + 1];
      TrimStartGiu(s[1..]);
    }
  }

  lemma {:induction false} TrimEndGiu(s: string)
    requires DangGop(s)
    ensures DangGop(TrimEnd(s)) && Chu(TrimEnd(s)) == Chu(s)
  {
    if s != [] && IsWhiteSpace(s[|s| - 1]) {
      var dau := s[..|s| - 1];
      assert s == dau + [s[|s| - 1]];
      ChuNoi(dau, [s[|s| - 1]]);
      TrimEndGiu(dau);
    }
  }

  /** The normaliser keeps every non-whitespace character in order, leaves no outer whitespace and no
      space after whitespace, and changes nothing when applied again. */
  lemma NormaliserSound(s: string)
    ensures Chu(ChuanHoa(s)) == Chu(s)
    ensures DangGop(ChuanHoa(s)) && Trimmed(ChuanHoa(s))
    ensures ChuanHoa(ChuanHoa(s)) == ChuanHoa(s)
  {
    var g := GopTrong(s, false);
    GopTrongNghia(s, false);
    TrimStartGiu(g);
    TrimEndGiu(TrimStart(g));
    TrimNghia(g);
    GopTrongGiu(ChuanHoa(s), false);
    TrimmedKept(ChuanHoa(s));
  }

  // ---------------------------------------------------------------- windows

  predicate LaNgat(c: char) { c == '.' || c == '\n' || c == '!' || c == '?' || c == ';' }

  /** The last break in text[lo..hi], or -1. */
  function NgatCuoi(text: string, lo: nat, hi: nat): (r: int)
    requires lo <= hi <= |text|
    ensures r == -1 || lo <= r < hi
    decreases hi
  {
    if hi == lo then -1 else if LaNgat(text[hi - 1]) then hi - 1 else NgatCuoi(text, lo, hi - 1)
  }

  /** It is a break, and nothing after it is. */
  lemma {:induction false} NgatCuoiNghia(text: string, lo: nat, hi: nat)
    requires lo <= hi <= |text|
    ensures var r := NgatCuoi(text, lo, hi);
            (r >= 0 ==> LaNgat(text[r])) && forall i :: lo <= i < hi && i > r ==> !LaNgat(text[i])
    decreases hi
  {
    if lo < hi && !LaNgat(text[hi - 1]) { NgatCuoiNghia(text, lo, hi - 1); }
  }

  /** The length of the window that starts at `start`. */
  function DoDai(text: string, start: nat, chunkSize: nat): (len: nat)
    requires start < |text| && chunkSize >= 1
    ensures 1 <= len <= chunkSize && start + len <= |text|
    ensures start + len < |text| && chunkSize == CHUNK_SIZE ==> len >= CHUNK_SIZE - 199
  {
    var len := Min(chunkSize, |text| - start);
    if start + len < |text| then
      var lastBreak := NgatCuoi(text, start + len - Min(len, 200), start + len);
      if lastBreak > start + chunkSize / 2 then lastBreak - start + 1 else len
    else len
  }

  /** A break at which a window of `dai` characters may end: among its last 200 characters and past the middle
      of the chunk size. */
  ghost predicate NgatDuoc(text: string, start: nat, dai: nat, chunkSize: nat, i: int) {
    && start + dai - 200 <= i < start + dai && start <= i < |text| && i > start + chunkSize / 2
    && text[i] in {'.', '\n', '!', '?', ';'}
  }

  /** A window that does not reach the end of the text ends with the last break at which it may end; without
      one it has the full chunk size. */
  lemma WindowEnd(text: string, start: nat, chunkSize: nat)
    requires start < |text| && chunkSize >= 1
    ensures var len := DoDai(text, start, chunkSize);
            if start + chunkSize >= |text| then start + len == |text|
            else if exists i: int :: NgatDuoc(text, start, chunkSize, chunkSize, i) then
              && NgatDuoc(text, start, chunkSize, chunkSize, start + len - 1)
              && forall i: int :: i >= start + len ==> !NgatDuoc(text, start, chunkSize, chunkSize, i)
            else len == chunkSize
  {
    if start + chunkSize < |text| {
      var lo, hi := start + chunkSize - Min(chunkSize, 200), start + chunkSize;
      var r := NgatCuoi(text, lo, hi);
      NgatCuoiNghia(text, lo, hi);
      forall i: int | NgatDuoc(text, start, chunkSize, chunkSize, i) ensures i <= r { assert LaNgat(text[i]); }
      if r > start + chunkSize / 2 { assert NgatDuoc(text, start, chunkSize, chunkSize, r); }
    }
  }

  /** The windows from `start` on, as pairs of start and end. */
  function CuaSo(text: string, start: nat, chunkSize: nat, overlap: nat): (ws: seq<(nat, nat)>)
    requires start < |text| && chunkSize >= 1
    ensures ws != [] && forall i :: 0 <= i < |ws| ==> ws[i].0 <= ws[i].1 <= |text|
    decreases |text| - start
  {
    var len := DoDai(text, start, chunkSize);
    if start + len >= |text| then [(start, start + len)]
    else [(start, start + len)] + CuaSo(text, start + Max(1, len - overlap), chunkSize, overlap)
  }

  /** Window i ends where the length of a window there says, and the next one starts `overlap` characters before
      its end, but at least one character after its start. */
  ghost predicate CuaSoTai(text: string, chunkSize: nat, overlap: nat, ws: seq<(nat, nat)>, i: nat) {
    && i < |ws| && chunkSize >= 1 && ws[i].0 < |text| && ws[i].1 == ws[i].0 + DoDai(text, ws[i].0, chunkSize)
    && (i + 1 < |ws| ==> ws[i + 1].0 == ws[i].0 + Max(1, ws[i].1 - ws[i].0 - overlap))
  }

  lemma CuaSoTaiThem(text: string, chunkSize: nat, overlap: nat, w: (nat, nat), sau: seq<(nat, nat)>, i: nat)
    requires CuaSoTai(text, chunkSize, overlap, sau, i)
    ensures CuaSoTai(text, chunkSize, overlap, [w] + sau, i + 1)
  {
    var ws := [w] + sau;
    assert ws[i + 1] == sau[i] && (i + 1 < |sau| ==> ws[i + 2] == sau[i + 1]);
  }

  lemma {:induction false} EveryWindowEnds(text: string, start: nat, chunkSize: nat, overlap: nat, i: nat)
    requires start < |text| && chunkSize >= 1 && i < |CuaSo(text, start, chunkSize, overlap)|
    ensures CuaSoTai(text, chunkSize, overlap, CuaSo(text, start, chunkSize, overlap), i)
    decreases |text| - start
  {
    var len := DoDai(text, start, chunkSize);
    if start + len < |text| {
      var tiep := start + Max(1, len - overlap);
      CuaSoMo(text, start, len, tiep, chunkSize, overlap);
      if i > 0 {
        EveryWindowEnds(text, tiep, chunkSize, overlap, i - 1);
        CuaSoTaiThem(text, chunkSize, overlap, (start, start + len), CuaSo(text, tiep, chunkSize, overlap), i - 1);
      } else {
        CuaSoDau(text, tiep, chunkSize, overlap);
      }
    }
  }

  lemma CuaSoDau(text: string, start: nat, chunkSize: nat, overlap: nat)
    requires start < |text| && chunkSize >= 1
    ensures CuaSo(text, start, chunkSize, overlap)[0].0 == start
  {
  }

  /** A window's text becomes a chunk unless at most 20 characters are left of it. */
  function Giu(p: nat, noiDung: string): seq<ChunkResult> {
    if |noiDung| > 20 then [ChunkResult(p + 1, noiDung)] else []
  }

  function ChunkCuaSo(p: nat, text: string, ws: seq<(nat, nat)>): seq<ChunkResult>
    requires forall i :: 0 <= i < |ws| ==> ws[i].0 <= ws[i].1 <= |text|
  {
    if ws == [] then []
    else
      Giu(p, Trim(text[ws[0].0..ws[0].1])) + ChunkCuaSo(p, text, ws[1..])
  }

  /** Windows of at most `dai` characters that follow one another without a gap from `start` to `end`. */
  ghost predicate PhuKin(ws: seq<(nat, nat)>, start: nat, end: nat, dai: nat) {
    && ws != [] && ws[0].0 == start && ws[|ws| - 1].1 == end
    && (forall i :: 0 <= i < |ws| ==> ws[i].0 < ws[i].1 <= end && ws[i].1 - ws[i].0 <= dai)
    && (forall i, j :: 0 <= i < j < |ws| && j == i + 1 ==> ws[i].0 < ws[j].0 <= ws[i].1)
  }

  lemma PhuKinThem(w: (nat, nat), ws: seq<(nat, nat)>, tiep: nat, end: nat, dai: nat)
    requires PhuKin(ws, tiep, end, dai) && w.0 < tiep <= w.1 <= end && w.1 - w.0 <= dai
    ensures PhuKin([w] + ws, w.0, end, dai)
  {
    var r := [w] + ws;
    assert forall i :: 0 < i < |r| ==> r[i] == ws[i - 1];
  }

  /** For any positive chunk size and any overlap the windows cover the text without gaps, and none
      is longer than the chunk size. */
  lemma {:induction false} WindowsCover(text: string, start: nat, chunkSize: nat, overlap: nat)
    requires start < |text| && chunkSize >= 1
    ensures PhuKin(CuaSo(text, start, chunkSize, overlap), start, |text|, chunkSize)
    decreases |text| - start
  {
    var len := DoDai(text, start, chunkSize);
    if start + len < |text| {
      var tiep := start + Max(1, len - overlap);
      WindowsCover(text, tiep, chunkSize, overlap);
      PhuKinTiep(text, start, len, tiep, chunkSize, overlap);
    } else {
      MotCuaSo(start, start + len, chunkSize);
    }
  }

  lemma PhuKinTiep(text: string, start: nat, len: nat, tiep: nat, chunkSize: nat, overlap: nat)
    requires start < |text| && chunkSize >= 1 && len == DoDai(text, start, chunkSize) && start + len < |text|
    requires tiep == start + Max(1, len - overlap) && tiep < |text|
    requires PhuKin(CuaSo(text, tiep, chunkSize, overlap), tiep, |text|, chunkSize)
    ensures PhuKin(CuaSo(text, start, chunkSize, overlap), start, |text|, chunkSize)
  {
    CuaSoMo(text, start, len, tiep, chunkSize, overlap);
    PhuKinThem((start, start + len), CuaSo(text, tiep, chunkSize, overlap), tiep, |text|, chunkSize);
  }

  lemma CuaSoMo(text: string, start: nat, len: nat, tiep: nat, chunkSize: nat, overlap: nat)
    requires start < |text| && chunkSize >= 1 && len == DoDai(text, start, chunkSize) && start + len < |text|
    requires tiep == start + Max(1, len - overlap)
    ensures tiep < |text| && CuaSo(text, start, chunkSize, overlap) ==
                              [(start, start + len)] + CuaSo(text, tiep, chunkSize, overlap)
  {
  }

  lemma MotCuaSo(start: nat, end: nat, dai: nat)
    requires start < end <= start + dai
    ensures PhuKin([(start, end)], start, end, dai)
  {
  }

  /** The windows joined, `bo` characters being dropped from the first and 150 from each later one. */
  ghost function Ghep(text: string, ws: seq<(nat, nat)>, bo: nat): string {
    if ws == [] then []
    else (if ws[0].0 + bo <= ws[0].1 <= |text| then text[ws[0].0 + bo..ws[0].1] else []) + Ghep(text, ws[1..], OVERLAP)
  }

  /** Enough windows for n characters. */
  function SoCuaSo(n: nat): nat { if n <= CHUNK_SIZE then 1 else 1 + (n - CHUNK_SIZE + 550) / 551 }

  /** Consecutive windows share exactly 150 characters, and each ends later than the one before. */
  ghost predicate ChongDung(ws: seq<(nat, nat)>) {
    forall i, j :: 0 <= i < j < |ws| && j == i + 1 ==> ws[i].1 == ws[j].0 + OVERLAP && ws[i].1 < ws[j].1
  }

  lemma ChongThem(w: (nat, nat), ws: seq<(nat, nat)>)
    requires ChongDung(ws) && ws != [] && w.1 == ws[0].0 + OVERLAP && w.1 < ws[0].1
    ensures ChongDung([w] + ws)
  {
    var r := [w] + ws;
    assert forall i :: 0 < i < |r| ==> r[i] == ws[i - 1];
  }

  lemma SoCuaSoBuoc(n: nat, m: nat)
    requires m + 551 <= n && n > CHUNK_SIZE
    ensures 1 + SoCuaSo(m) <= SoCuaSo(n)
  {
  }

  /** What is claimed of the windows from `start` on. */
  ghost predicate CuaSoDung(text: string, start: nat, ws: seq<(nat, nat)>)
    requires start < |text|
  {
    && ws != [] && ws[0].0 == start && ChongDung(ws) && |ws| <= SoCuaSo(|text| - start)
    && Ghep(text, ws, 0) == text[start..]
    && (start + OVERLAP < |text| ==> ws[0].1 > start + OVERLAP && Ghep(text, ws, OVERLAP) == text[start + OVERLAP..])
  }

  lemma CuaSoThem(text: string, start: nat, len: nat, sau: seq<(nat, nat)>)
    requires start + len < |text| && 701 <= len <= CHUNK_SIZE && |text| - start > CHUNK_SIZE
    requires CuaSoDung(text, start + len - OVERLAP, sau)
    ensures CuaSoDung(text, start, [(start, start + len)] + sau)
  {
    var w := (start, start + len);
    var ws := [w] + sau;
    assert ws[1..] == sau;
    ChongThem(w, sau);
    SoCuaSoBuoc(|text| - start, |text| - (start + len - OVERLAP));
    GhepTach(text, start, len, ws, 0);
    GhepTach(text, start, len, ws, OVERLAP);
  }

  lemma CuaSoCuoi(text: string, start: nat, len: nat)
    requires len >= 1 && start + len == |text|
    ensures CuaSoDung(text, start, [(start, start + len)])
  {
    var ws := [(start, start + len)];
    assert ws[1..] == [];
    GhepCuoi(text, start, len, ws, 0);
    if start + OVERLAP < |text| { GhepCuoi(text, start, len, ws, OVERLAP); }
  }

  lemma DoDaiMacDinh(text: string, start: nat)
    requires start < |text|
    ensures start + DoDai(text, start, CHUNK_SIZE) < |text| ==> |text| - start > CHUNK_SIZE
  {
  }

  lemma {:induction false} CuaSoMacDinh(text: string, start: nat)
    requires start < |text|
    ensures CuaSoDung(text, start, CuaSo(text, start, CHUNK_SIZE, OVERLAP))
    decreases |text| - start
  {
    var len := DoDai(text, start, CHUNK_SIZE);
    if start + len < |text| {
      var tiep := start + len - OVERLAP;
      CuaSoMacDinh(text, tiep);
      CuaSoMacDinhTiep(text, start, len, tiep);
    } else {
      CuaSoCuoi(text, start, len);
    }
  }

  lemma CuaSoMacDinhTiep(text: string, start: nat, len: nat, tiep: nat)
    requires start < |text| && len == DoDai(text, start, CHUNK_SIZE) && start + len < |text|
    requires tiep == start + len - OVERLAP && CuaSoDung(text, tiep, CuaSo(text, tiep, CHUNK_SIZE, OVERLAP))
    ensures CuaSoDung(text, start, CuaSo(text, start, CHUNK_SIZE, OVERLAP))
  {
    var sau := CuaSo(text, tiep, CHUNK_SIZE, OVERLAP);
    DoDaiMacDinh(text, start);
    CuaSoThem(text, start, len, sau);
    CuaSoMo(text, start, len, tiep, CHUNK_SIZE, OVERLAP);
  }

  /** At the defaults consecutive windows share exactly 150 characters, dropping the shared ones
      rebuilds the text, and a text of n characters takes at most 1 + ceil((n - 900) / 551) windows. */
  lemma DefaultWindows(text: string)
    requires text != []
    ensures var ws := CuaSo(text, 0, CHUNK_SIZE, OVERLAP);
            ChongDung(ws) && Ghep(text, ws, 0) == text && |ws| <= SoCuaSo(|text|)
  {
    CuaSoMacDinh(text, 0);
    assert text[0..] == text;
  }

  lemma GhepTach(text: string, start: nat, len: nat, ws: seq<(nat, nat)>, bo: nat)
    requires ws != [] && ws[0] == (start, start + len) && bo <= len && start + len < |text|
    requires Ghep(text, ws[1..], OVERLAP) == text[start + len..]
    ensures Ghep(text, ws, bo) == text[start + bo..]
  {
    assert text[start + bo..] == text[start + bo..start + len] + text[start + len..];
  }

  lemma GhepCuoi(text: string, start: nat, len: nat, ws: seq<(nat, nat)>, bo: nat)
    requires ws != [] && ws[0] == (start, start + len) && ws[1..] == [] && bo <= len && start + len == |text|
    ensures Ghep(text, ws, bo) == text[start + bo..]
  {
    assert Ghep(text, ws, bo) == text[start + bo..start + len] + [];
  }

  // ---------------------------------------------------------------- the chunks of a document

  function ChunkTrang(pages: seq<string>, p: nat, chunkSize: nat, overlap: nat): seq<ChunkResult>
    requires p < |pages| && chunkSize >= 1
  {
    var text := ChuanHoa(pages[p]);
    if |text| == 0 then [] else ChunkTu(text, p, 0, chunkSize, overlap)
  }

  /** The chunks of one page from position `start` on. */
  function ChunkTu(text: string, p: nat, start: nat, chunkSize: nat, overlap: nat): seq<ChunkResult>
    requires start < |text| && chunkSize >= 1
  {
    ChunkCuaSo(p, text, CuaSo(text, start, chunkSize, overlap))
  }

  /** The chunks of the first n pages, page by page. */
  function TungTrang(pages: seq<string>, n: nat, chunkSize: nat, overlap: nat): (r: seq<seq<ChunkResult>>)
    requires n <= |pages| && chunkSize >= 1
    ensures |r| == n
  {
    if n == 0 then [] else TungTrang(pages, n - 1, chunkSize, overlap) + [ChunkTrang(pages, n - 1, chunkSize, overlap)]
  }

  function ChunkCacTrang(pages: seq<string>, n: nat, chunkSize: nat, overlap: nat): seq<ChunkResult>
    requires n <= |pages| && chunkSize >= 1
  {
    Flatten(TungTrang(pages, n, chunkSize, overlap))
  }

  lemma ThemTrang(pages: seq<string>, m: nat, chunkSize: nat, overlap: nat)
    requires m < |pages| && chunkSize >= 1
    ensures ChunkCacTrang(pages, m + 1, chunkSize, overlap) ==
            ChunkCacTrang(pages, m, chunkSize, overlap) + ChunkTrang(pages, m, chunkSize, overlap)
  {
    FlattenAppend(TungTrang(pages, m, chunkSize, overlap), ChunkTrang(pages, m, chunkSize, overlap));
  }

  lemma ChunkCuaSoNoi(p: nat, text: string, w: (nat, nat), sau: seq<(nat, nat)>)
    requires w.0 <= w.1 <= |text| && forall i :: 0 <= i < |sau| ==> sau[i].0 <= sau[i].1 <= |text|
    ensures forall i :: 0 <= i < |[w] + sau| ==> ([w] + sau)[i].0 <= ([w] + sau)[i].1 <= |text|
    ensures ChunkCuaSo(p, text, [w] + sau) == Giu(p, Trim(text[w.0..w.1])) + ChunkCuaSo(p, text, sau)
  {
    assert ([w] + sau)[1..] == sau;
  }

  lemma ChunkTuBuoc(text: string, p: nat, start: nat, len: nat, tiep: nat, chunkSize: nat, overlap: nat)
    requires start < |text| && chunkSize >= 1
    requires len == DoDai(text, start, chunkSize) && tiep == start + Max(1, len - overlap)
    ensures ChunkTu(text, p, start, chunkSize, overlap) ==
            Giu(p, Trim(text[start..start + len])) +
            if start + len >= |text| then [] else ChunkTu(text, p, tiep, chunkSize, overlap)
  {
    if start + len >= |text| {
      ChunkTuCuoi(text, p, start, len, chunkSize, overlap);
    } else {
      ChunkTuGiua(text, p, start, len, tiep, chunkSize, overlap);
    }
  }

  lemma ChunkTuCuoi(text: string, p: nat, start: nat, len: nat, chunkSize: nat, overlap: nat)
    requires start < |text| && chunkSize >= 1 && len == DoDai(text, start, chunkSize) && start + len >= |text|
    ensures ChunkTu(text, p, start, chunkSize, overlap) == Giu(p, Trim(text[start..start + len]))
  {
    assert CuaSo(text, start, chunkSize, overlap) == [(start, start + len)] + [];
    ChunkCuaSoNoi(p, text, (start, start + len), []);
  }

  lemma ChunkTuGiua(text: string, p: nat, start: nat, len: nat, tiep: nat, chunkSize: nat, overlap: nat)
    requires start < |text| && chunkSize >= 1 && len == DoDai(text, start, chunkSize) && start + len < |text|
    requires tiep == start + Max(1, len - overlap)
    ensures ChunkTu(text, p, start, chunkSize, overlap) ==
            Giu(p, Trim(text[start..start + len])) + ChunkTu(text, p, tiep, chunkSize, overlap)
  {
    var w: (nat, nat), sau := (start, start + len), CuaSo(text, tiep, chunkSize, overlap);
    assert CuaSo(text, start, chunkSize, overlap) == [w] + sau by {
      CuaSoMo(text, start, len, tiep, chunkSize, overlap);
    }
    ChunkCuaSoNoi(p, text, w, sau);
  }

  method Chunk(pages: seq<string>, chunkSize: nat, overlap: nat) returns (result: seq<ChunkResult>)
    requires chunkSize >= 1
    ensures result == ChunkCacTrang(pages, |pages|, chunkSize, overlap)
  {
    result := [];
    for p := 0 to |pages|
      invariant result == ChunkCacTrang(pages, p, chunkSize, overlap)
    {
      ThemTrang(pages, p, chunkSize, overlap);
      var text := ChuanHoaKhoangTrang(pages[p]);
      if |text| == 0 { continue; }
      var cuaTrang := ChunkMotTrang(text, p, chunkSize, overlap);
      result := result + cuaTrang;
    }
  }

  /** The windows of one page, from its start to its end. */
  method ChunkMotTrang(text: string, p: nat, chunkSize: nat, overlap: nat) returns (result: seq<ChunkResult>)
    requires chunkSize >= 1 && |text| > 0
    ensures result == ChunkTu(text, p, 0, chunkSize, overlap)
  {
    result := [];
    var start := 0;
    while start < |text|
      invariant start < |text|
      invariant result + ChunkTu(text, p, start, chunkSize, overlap) == ChunkTu(text, p, 0, chunkSize, overlap)
      decreases |text| - start
    {
      var len := DoDaiCuaSo(text, start, chunkSize);
      var tiep := start + Max(1, len - overlap);
      var noiDung := Trim(text[start..start + len]);
      ChunkTuBuoc(text, p, start, len, tiep, chunkSize, overlap);
      ghost var sau := if start + len >= |text| then [] else ChunkTu(text, p, tiep, chunkSize, overlap);
      AppendAssociative(result, Giu(p, noiDung), sau);
      ghost var truoc := result;
      if |noiDung| > 20 { result := result + [ChunkResult(p + 1, noiDung)]; }
      assert result == truoc + Giu(p, noiDung);
      if start + len >= |text| { break; }
      start := tiep;
    }
  }

  /** Prefers to end the window at a sentence break in its last 200 characters. */
  method DoDaiCuaSo(text: string, start: nat, chunkSize: nat) returns (len: nat)
    requires start < |text| && chunkSize >= 1
    ensures len == DoDai(text, start, chunkSize)
  {
    len := Min(chunkSize, |text| - start);
    if start + len < |text| {
      var lastBreak := NgatCuoi(text, start + len - Min(len, 200), start + len);
      if lastBreak > start + chunkSize / 2 { len := lastBreak - start + 1; }
    }
  }
}
