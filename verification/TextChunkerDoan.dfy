/** The chunks of a document against the windows of its pages. */
module TextChunkerDoan {
  import opened Collections
  import opened Text
  import opened TextChunker

  /** The text of window w.1 of page w.0, trimmed; "" if there is no such window. */
  function NoiDung(pages: seq<string>, chunkSize: nat, overlap: nat, w: (nat, nat)): string {
    if chunkSize >= 1 && w.0 < |pages| && ChuanHoa(pages[w.0]) != [] then
      var text := ChuanHoa(pages[w.0]);
      var ws := CuaSo(text, 0, chunkSize, overlap);
      if w.1 < |ws| then Trim(text[ws[w.1].0..ws[w.1].1]) else []
    else []
  }

  /** Chunk c holds that text, more than 20 characters, under the page's number. */
  ghost predicate LaDoan(pages: seq<string>, chunkSize: nat, overlap: nat, w: (nat, nat), c: ChunkResult) {
    c == ChunkResult(w.0 + 1, NoiDung(pages, chunkSize, overlap, w)) && |c.noiDung| > 20
  }

  ghost function DoanCua(pages: seq<string>, chunkSize: nat, overlap: nat): ((nat, nat), ChunkResult) -> bool {
    (w: (nat, nat), c: ChunkResult) => LaDoan(pages, chunkSize, overlap, w, c)
  }

  /** Page by page, and window by window in a page. */
  ghost function CuaSoTruoc(): ((nat, nat), (nat, nat)) -> bool {
    (v: (nat, nat), w: (nat, nat)) => v.0 < w.0 || (v.0 == w.0 && v.1 < w.1)
  }

  /** The window leaves more than 20 characters. */
  ghost function DuDai(pages: seq<string>, chunkSize: nat, overlap: nat): ((nat, nat)) -> bool {
    (w: (nat, nat)) => |NoiDung(pages, chunkSize, overlap, w)| > 20
  }

  /** These are the chunks of page p from window k on: `du` says which windows yield one. */
  ghost predicate DoanTu(of: ((nat, nat), ChunkResult) -> bool, du: ((nat, nat)) -> bool, p: nat, k: nat,
                         r: seq<ChunkResult>, vi: seq<(nat, nat)>) {
    && Numbered(r, vi, of, CuaSoTruoc()) && (forall w :: w in vi ==> w.0 == p && k <= w.1)
    && (forall i: nat :: k <= i && du((p, i)) ==> (p, i) in vi)
  }

  lemma ThemCuaSo(of: ((nat, nat), ChunkResult) -> bool, du: ((nat, nat)) -> bool, p: nat, k: nat, n: nat,
                  dau: seq<ChunkResult>, r: seq<ChunkResult>, vi: seq<(nat, nat)>) returns (het: seq<(nat, nat)>)
    requires n == k + 1 && DoanTu(of, du, p, n, r, vi)
    requires if du((p, k)) then |dau| == 1 && of((p, k), dau[0]) else dau == []
    ensures DoanTu(of, du, p, k, dau + r, het)
  {
    var w: (nat, nat) := (p, k);
    if du(w) {
      NumberedAppend(dau, [w], r, vi, of, CuaSoTruoc());
      het := [w] + vi;
      assert forall v :: v in het <==> v == w || v in vi;
    } else {
      het := vi;
      assert [] + r == r;
    }
  }

  lemma GiuNghia(pages: seq<string>, chunkSize: nat, overlap: nat, w: (nat, nat), noiDung: string)
    requires noiDung == NoiDung(pages, chunkSize, overlap, w)
    ensures if DuDai(pages, chunkSize, overlap)(w)
            then |Giu(w.0, noiDung)| == 1 && DoanCua(pages, chunkSize, overlap)(w, Giu(w.0, noiDung)[0])
            else Giu(w.0, noiDung) == []
  {
  }

  /** The chunks of window k and of those after it. */
  lemma ChunkTach(p: nat, text: string, ws: seq<(nat, nat)>, k: nat)
    requires k < |ws| && forall i :: 0 <= i < |ws| ==> ws[i].0 <= ws[i].1 <= |text|
    ensures ChunkCuaSo(p, text, ws[k..]) == Giu(p, Trim(text[ws[k].0..ws[k].1])) + ChunkCuaSo(p, text, ws[k + 1..])
  {
    assert ws[k..] == [ws[k]] + ws[k + 1..];
    ChunkCuaSoNoi(p, text, ws[k], ws[k + 1..]);
  }

  lemma {:induction false} DoanTuCuaSo(pages: seq<string>, chunkSize: nat, overlap: nat, p: nat, text: string,
                                       ws: seq<(nat, nat)>, k: nat) returns (vi: seq<(nat, nat)>)
    requires chunkSize >= 1 && p < |pages| && text == ChuanHoa(pages[p]) && text != []
    requires ws == CuaSo(text, 0, chunkSize, overlap) && k <= |ws|
    ensures DoanTu(DoanCua(pages, chunkSize, overlap), DuDai(pages, chunkSize, overlap), p, k,
                   ChunkCuaSo(p, text, ws[k..]), vi)
    decreases |ws| - k
  {
    if k == |ws| {
      vi := [];
    } else {
      var noiDung := Trim(text[ws[k].0..ws[k].1]);
      var sau := DoanTuCuaSo(pages, chunkSize, overlap, p, text, ws, k + 1);
      ChunkTach(p, text, ws, k);
      GiuNghia(pages, chunkSize, overlap, (p, k), noiDung);
      vi := ThemCuaSo(DoanCua(pages, chunkSize, overlap), DuDai(pages, chunkSize, overlap), p, k, k + 1,
                      Giu(p, noiDung), ChunkCuaSo(p, text, ws[k + 1..]), sau);
    }
  }

  lemma DoanTrang(pages: seq<string>, chunkSize: nat, overlap: nat, p: nat) returns (vi: seq<(nat, nat)>)
    requires chunkSize >= 1 && p < |pages|
    ensures DoanTu(DoanCua(pages, chunkSize, overlap), DuDai(pages, chunkSize, overlap), p, 0,
                   ChunkTrang(pages, p, chunkSize, overlap), vi)
  {
    var text := ChuanHoa(pages[p]);
    if text == [] {
      vi := [];
    } else {
      var ws := CuaSo(text, 0, chunkSize, overlap);
      vi := DoanTuCuaSo(pages, chunkSize, overlap, p, text, ws, 0);
      assert ws[0..] == ws;
    }
  }

  /** These are the chunks of the first n pages. */
  ghost predicate CacTrang(of: ((nat, nat), ChunkResult) -> bool, du: ((nat, nat)) -> bool, n: nat,
                           r: seq<ChunkResult>, vi: seq<(nat, nat)>) {
    && Numbered(r, vi, of, CuaSoTruoc()) && (forall w :: w in vi ==> w.0 < n)
    && (forall p: nat, i: nat :: p < n && du((p, i)) ==> (p, i) in vi)
  }

  lemma NoiTrang(of: ((nat, nat), ChunkResult) -> bool, du: ((nat, nat)) -> bool, n: nat, sau: nat,
                 a: seq<ChunkResult>, va: seq<(nat, nat)>, b: seq<ChunkResult>, vb: seq<(nat, nat)>)
    requires sau == n + 1 && CacTrang(of, du, n, a, va) && DoanTu(of, du, n, 0, b, vb)
    ensures CacTrang(of, du, sau, a + b, va + vb)
  {
    NumberedAppend(a, va, b, vb, of, CuaSoTruoc());
    assert forall w :: w in va + vb <==> w in va || w in vb;
  }

  lemma {:induction false} DoanCacTrang(pages: seq<string>, chunkSize: nat, overlap: nat, n: nat)
      returns (vi: seq<(nat, nat)>)
    requires chunkSize >= 1 && n <= |pages|
    ensures CacTrang(DoanCua(pages, chunkSize, overlap), DuDai(pages, chunkSize, overlap), n,
                     ChunkCacTrang(pages, n, chunkSize, overlap), vi)
  {
    if n == 0 {
      vi := [];
    } else {
      var dau := DoanCacTrang(pages, chunkSize, overlap, n - 1);
      var sau := DoanTrang(pages, chunkSize, overlap, n - 1);
      ThemTrang(pages, n - 1, chunkSize, overlap);
      NoiTrang(DoanCua(pages, chunkSize, overlap), DuDai(pages, chunkSize, overlap), n - 1, n,
               ChunkCacTrang(pages, n - 1, chunkSize, overlap), dau,
               ChunkTrang(pages, n - 1, chunkSize, overlap), sau);
      vi := dau + sau;
    }
  }

  /** The chunks of a document are those of exactly the windows with more than 20 characters left after trimming,
      page by page and window by window, each under its page's number. */
  lemma ChunksExact(pages: seq<string>, chunkSize: nat, overlap: nat) returns (vi: seq<(nat, nat)>)
    requires chunkSize >= 1
    ensures var r := ChunkCacTrang(pages, |pages|, chunkSize, overlap);
            && |vi| == |r| && (forall k :: 0 <= k < |r| ==> LaDoan(pages, chunkSize, overlap, vi[k], r[k]))
            && (forall k, m :: 0 <= k < m < |vi| ==> vi[k].0 < vi[m].0 || (vi[k].0 == vi[m].0 && vi[k].1 < vi[m].1))
            && forall w: (nat, nat) :: |NoiDung(pages, chunkSize, overlap, w)| > 20 ==> w in vi
  {
    vi := DoanCacTrang(pages, chunkSize, overlap, |pages|);
    var r := ChunkCacTrang(pages, |pages|, chunkSize, overlap);
    forall k | 0 <= k < |r| ensures LaDoan(pages, chunkSize, overlap, vi[k], r[k]) {
      assert DoanCua(pages, chunkSize, overlap)(vi[k], r[k]);
    }
    forall k, m | 0 <= k < m < |vi| ensures vi[k].0 < vi[m].0 || (vi[k].0 == vi[m].0 && vi[k].1 < vi[m].1) {
      assert CuaSoTruoc()(vi[k], vi[m]);
    }
    forall w: (nat, nat) | |NoiDung(pages, chunkSize, overlap, w)| > 20 ensures w in vi {
      assert w == (w.0, w.1) && DuDai(pages, chunkSize, overlap)(w);
    }
  }
}
