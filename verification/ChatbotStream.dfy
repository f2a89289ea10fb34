/** The answer stream: the server writes one event per token and one at the end, the browser cuts
    whatever pieces arrive into events again. Event boundaries are blank lines, as in section 9.2.6
    of the WHATWG HTML Living Standard. */
module ChatbotStream {
  import opened Collections
  import opened Wrappers
  import opened Text

  newtype int32 = x: int | -0x8000_0000 <= x < 0x8000_0000

  /** The server's records. */
  datatype NguonTraLoi = NguonTraLoi(maTaiLieu: int32, tenFile: string, trang: int32)
  datatype HanhDongCho = HanhDongCho(loai: string, maLopHocKy: int32, moTa: string)

  /** A JSON value. */
  datatype GiaTri =
    | Rong | Co(co: bool) | So(so: int32) | Chu(chu: string) | Mang(phanTu: seq<GiaTri>)
    | DoiTuong(truong: map<string, GiaTri>)

  /** The JSON printer of the server and the JSON parser of the browser. */
  datatype Json = Json(viet: GiaTri -> string, doc: string -> GiaTri)

  // ---------------------------------------------------------------- text functions of the browser

  const KHOANG_TRANG_JS: seq<(char, char)> := [
    ('\U{0009}', '\U{000D}'), (' ', ' '), ('\U{00A0}', '\U{00A0}'), ('\U{1680}', '\U{1680}'), ('\U{2000}', '\U{200A}'),
    ('\U{2028}', '\U{2029}'), ('\U{202F}', '\U{202F}'), ('\U{205F}', '\U{205F}'), ('\U{3000}', '\U{3000}'),
    ('\U{FEFF}', '\U{FEFF}')]

  predicate TrangJs(c: char) { TrongKhoang(c, KHOANG_TRANG_JS) }

  function BoDau(s: string): string { if s != [] && TrangJs(s[0]) then BoDau(s[1..]) else s }

  function BoCuoi(s: string): string {
    if s != [] && TrangJs(s[|s| - 1]) then BoCuoi(s[..|s| - 1]) else s
  }

  function TrimJs(s: string): string { BoCuoi(BoDau(s)) }

  ghost predicate GonJs(s: string) { s != [] && !TrangJs(s[0]) && !TrangJs(s[|s| - 1]) }

  lemma TrimJsGiu(s: string)
    requires GonJs(s)
    ensures TrimJs(s) == s && TrimJs([' '] + s) == s
  {
    assert ([' '] + s)[1..] == s;
    assert TrangJs(' ');
    assert BoDau([' '] + s) == BoDau(s);
  }

  /** The position of the first blank line, or the length of the text. */
  function NgatDau(s: string): (i: nat)
    ensures i <= |s|
    ensures i == |s| || (i + 2 <= |s| && s[i] == '\n' && s[i + 1] == '\n')
  {
    if |s| < 2 then |s| else if s[0] == '\n' && s[1] == '\n' then 0 else 1 + NgatDau(s[1..])
  }

  /** Splitting at blank lines: the complete events, and what is left over. */
  function Tach(s: string): (seq<string>, string)
    decreases |s|, 1
  {
    var i := NgatDau(s);
    if i == |s| then ([], s)
    else
      TachSau(s, i)
  }

  /** The first event ends at position i. */
  function TachSau(s: string, i: nat): (seq<string>, string)
    requires i + 2 <= |s|
    decreases |s|, 0
  {
    var con := Tach(s[i + 2..]);
    ([s[..i]] + con.0, con.1)
  }

  // ---------------------------------------------------------------- the browser

  /** A property of a value, None if it has none of that name; names are compared exactly. */
  function Doc(v: GiaTri, ten: string): Option<GiaTri> {
    if v.DoiTuong? && ten in v.truong then Some(v.truong[ten]) else None
  }

  /** What counts as true in a condition. */
  predicate Truthy(v: Option<GiaTri>) {
    match v
    case None => false
    case Some(x) => !(x == Rong || x == Co(false) || x == So(0) || x == Chu(""))
  }

  /** The value, or the other one if it is absent or null. */
  function Hoac(v: Option<GiaTri>, khac: GiaTri): GiaTri { if v.None? || v.value == Rong then khac else v.value }

  /** What the page has received: the pieces of the answer, the sources, the proposed action. */
  datatype KetQua = KetQua(deltas: seq<GiaTri>, nguon: GiaTri, hanhDong: GiaTri)

  const RONG := KetQua([], Mang([]), Rong)

  function NhanPayload(p: GiaTri, kq: KetQua): KetQua {
    var delta := Doc(p, "delta");
    var k := if Truthy(delta) then kq.(deltas := kq.deltas + [delta.value]) else kq;
    if Truthy(Doc(p, "done"))
    then k.(nguon := Hoac(Doc(p, "nguon"), Mang([])), hanhDong := Hoac(Doc(p, "hanhDong"), Rong))
    else k
  }

  function XuLy(js: Json, evt: string, kq: KetQua): KetQua {
    var line := TrimJs(evt);
    if |line| < 5 || line[..5] != "data:" then kq
    else
      var data := TrimJs(line[5..]);
      if data == [] then kq else NhanPayload(js.doc(data), kq)
  }

  function XuLyCac(js: Json, evts: seq<string>, kq: KetQua): KetQua {
    if evts == [] then kq else XuLyCac(js, evts[1..], XuLy(js, evts[0], kq))
  }

  /** Buffer and result after the pieces have been read one by one. */
  function DocCac(js: Json, pieces: seq<string>, buffer: string, kq: KetQua): (string, KetQua)
    decreases |pieces|
  {
    if pieces == [] then (buffer, kq)
    else
      var (evts, du) := Tach(buffer + pieces[0]);
      DocCac(js, pieces[1..], du, XuLyCac(js, evts, kq))
  }

  class StreamClient {
    const js: Json
    var buffer: string
    var deltas: seq<GiaTri>
    var nguon: GiaTri
    var hanhDong: GiaTri

    constructor (js: Json)
      ensures this.js == js && buffer == "" && DaNhan() == RONG
    {
      this.js := js;
      buffer, deltas, nguon, hanhDong := "", [], Mang([]), Rong;
    }

    function DaNhan(): KetQua
      reads this
    {
      KetQua(deltas, nguon, hanhDong)
    }

    method NhanSuKien(evt: string)
      modifies this`deltas, this`nguon, this`hanhDong
      ensures DaNhan() == XuLy(js, evt, old(DaNhan()))
    {
      var line := TrimJs(evt);
      if |line| < 5 || line[..5] != "data:" { return; }
      var data := TrimJs(line[5..]);
      if data == "" { return; }
      var payload := js.doc(data);
      var delta := Doc(payload, "delta");
      if Truthy(delta) { deltas := deltas + [delta.value]; }
      if Truthy(Doc(payload, "done")) {
        nguon := Hoac(Doc(payload, "nguon"), Mang([]));
        hanhDong := Hoac(Doc(payload, "hanhDong"), Rong);
      }
    }

    /** One piece of the stream. */
    method NhanMieng(value: string)
      modifies this
      ensures var t := Tach(old(buffer) + value); buffer == t.1 && DaNhan() == XuLyCac(js, t.0, old(DaNhan()))
    {
      buffer := buffer + value;
      var (events, du) := Tach(buffer);
      buffer := du;
      for i := 0 to |events|
        invariant buffer == du
        invariant XuLyCac(js, events[i..], DaNhan()) == XuLyCac(js, events, old(DaNhan()))
      {
        assert events[i..][1..] == events[i + 1..];
        NhanSuKien(events[i]);
      }
    }

    method NhanTatCa(pieces: seq<string>)
      modifies this
      ensures (buffer, DaNhan()) == DocCac(js, pieces, old(buffer), old(DaNhan()))
    {
      for i := 0 to |pieces|
        invariant DocCac(js, pieces[i..], buffer, DaNhan()) == DocCac(js, pieces, old(buffer), old(DaNhan()))
      {
        assert pieces[i..][1..] == pieces[i + 1..];
        NhanMieng(pieces[i]);
      }
    }
  }

  // ---------------------------------------------------------------- the server

  function SuKien(js: Json, p: GiaTri): string { "data: " + js.viet(p) + "\n\n" }

  function CacSuKien(js: Json, ps: seq<GiaTri>): string {
    if ps == [] then [] else SuKien(js, ps[0]) + CacSuKien(js, ps[1..])
  }

  function Mieng(token: string): GiaTri { DoiTuong(map["delta" := Chu(token)]) }

  /** Records are printed under the names of their members. */
  function NguonJson(n: NguonTraLoi): GiaTri {
    DoiTuong(map["MaTaiLieu" := So(n.maTaiLieu), "TenFile" := Chu(n.tenFile), "Trang" := So(n.trang)])
  }

  function CacNguonJson(ns: seq<NguonTraLoi>): (r: seq<GiaTri>)
    ensures |r| == |ns| && forall i :: 0 <= i < |ns| ==> r[i] == NguonJson(ns[i])
  {
    if ns == [] then [] else [NguonJson(ns[0])] + CacNguonJson(ns[1..])
  }

  function HanhDongJson(h: Option<HanhDongCho>): GiaTri {
    match h
    case None => Rong
    case Some(x) => DoiTuong(map["Loai" := Chu(x.loai), "MaLopHocKy" := So(x.maLopHocKy), "MoTa" := Chu(x.moTa)])
  }

  function Ket(nguon: seq<NguonTraLoi>, hanhDong: Option<HanhDongCho>): GiaTri {
    DoiTuong(map["done" := Co(true), "nguon" := Mang(CacNguonJson(nguon)), "hanhDong" := HanhDongJson(hanhDong)])
  }

  function CacMieng(tokens: seq<string>): seq<GiaTri> {
    if tokens == [] then [] else [Mieng(tokens[0])] + CacMieng(tokens[1..])
  }

  function Gop(ss: seq<string>): string { if ss == [] then [] else ss[0] + Gop(ss[1..]) }

  lemma SuKienDau(js: Json, token: string, sau: seq<string>, ket: GiaTri)
    ensures CacSuKien(js, CacMieng([token] + sau) + [ket]) ==
            SuKien(js, Mieng(token)) + CacSuKien(js, CacMieng(sau) + [ket])
  {
    var ps := CacMieng(sau) + [ket];
    assert ([token] + sau)[1..] == sau;
    AppendAssociative([Mieng(token)], CacMieng(sau), [ket]);
    assert CacMieng([token] + sau) + [ket] == [Mieng(token)] + ps;
    assert ([Mieng(token)] + ps)[1..] == ps;
  }

  lemma SuKienTai(js: Json, tokens: seq<string>, i: nat, ket: GiaTri)
    requires i < |tokens|
    ensures Gop(tokens[i..]) == tokens[i] + Gop(tokens[i + 1..])
    ensures CacSuKien(js, CacMieng(tokens[i..]) + [ket]) ==
            SuKien(js, Mieng(tokens[i])) + CacSuKien(js, CacMieng(tokens[i + 1..]) + [ket])
  {
    assert tokens[i..] == [tokens[i]] + tokens[i + 1..];
    SuKienDau(js, tokens[i], tokens[i + 1..], ket);
  }

  lemma SuKienCuoi(js: Json, full: string, het: seq<string>, ket: GiaTri)
    requires het == []
    ensures full + Gop(het) == full && CacSuKien(js, CacMieng(het) + [ket]) == SuKien(js, ket)
  {
    assert CacMieng(het) + [ket] == [ket];
    assert SuKien(js, ket) + [] == SuKien(js, ket);
  }

  class StreamServer {
    const js: Json
    var body: string

    constructor (js: Json)
      ensures this.js == js && body == ""
    {
      this.js, body := js, "";
    }

    method WriteSse(p: GiaTri)
      modifies this
      ensures body == old(body) + SuKien(js, p)
    {
      body := body + ("data: " + js.viet(p) + "\n\n");
    }

    /** `cite` picks the sources for the complete answer. */
    method HoiStream(tokens: seq<string>, cite: string -> seq<NguonTraLoi>, hanhDong: Option<HanhDongCho>)
      modifies this
      ensures body == old(body) + CacSuKien(js, CacMieng(tokens) + [Ket(cite(Gop(tokens)), hanhDong)])
    {
      var full := "";
      ghost var ket := Ket(cite(Gop(tokens)), hanhDong);
      for i := 0 to |tokens|
        invariant full + Gop(tokens[i..]) == Gop(tokens)
        invariant body + CacSuKien(js, CacMieng(tokens[i..]) + [ket]) ==
                  old(body) + CacSuKien(js, CacMieng(tokens) + [ket])
      {
        SuKienTai(js, tokens, i, ket);
        var t := tokens[i];
        AppendAssociative(full, t, Gop(tokens[i + 1..]));
        AppendAssociative(body, SuKien(js, Mieng(t)), CacSuKien(js, CacMieng(tokens[i + 1..]) + [ket]));
        full := full + t;
        WriteSse(Mieng(t));
      }
      SuKienCuoi(js, full, tokens[|tokens|..], ket);
      WriteSse(Ket(cite(full), hanhDong));
    }
  }

  // ---------------------------------------------------------------- piece boundaries do not matter

  lemma {:induction false} NgatDauNoi(x: string, y: string)
    requires NgatDau(x) < |x|
    ensures NgatDau(x + y) == NgatDau(x)
  {
    if !(x[0] == '\n' && x[1] == '\n') {
      assert (x + y)[1..] == x[1..] + y;
      NgatDauNoi(x[1..], y);
    }
  }

  lemma TachTai(s: string, i: nat)
    requires NgatDau(s) == i < |s|
    ensures Tach(s) == ([s[..i]] + Tach(s[i + 2..]).0, Tach(s[i + 2..]).1)
  {
  }

  /** What is left over after a first piece carries everything the next piece needs. */
  lemma {:induction false} TachNoi(x: string, y: string)
    ensures Tach(x + y) == (Tach(x).0 + Tach(Tach(x).1 + y).0, Tach(Tach(x).1 + y).1)
    decreases |x|
  {
    var i := NgatDau(x);
    if i < |x| {
      var dau, xs := [x[..i]], x[i + 2..];
      TachTai(x, i);
      NgatDauNoi(x, y);
      TachTai(x + y, i);
      assert (x + y)[i + 2..] == xs + y && (x + y)[..i] == x[..i];
      TachNoi(xs, y);
      AppendAssociative(dau, Tach(xs).0, Tach(Tach(xs).1 + y).0);
    } else {
      assert Tach(x) == ([], x);
      assert [] + Tach(x + y).0 == Tach(x + y).0;
    }
  }

  lemma {:induction false} XuLyNoi(js: Json, a: seq<string>, b: seq<string>, kq: KetQua)
    ensures XuLyCac(js, a + b, kq) == XuLyCac(js, b, XuLyCac(js, a, kq))
  {
    if a == [] {
      assert a + b == b;
    } else {
      assert (a + b)[1..] == a[1..] + b;
      XuLyNoi(js, a[1..], b, XuLy(js, a[0], kq));
    }
  }

  /** However a stream is cut into pieces, the page receives what it would from one piece. */
  lemma {:induction false} PiecesDoNotMatter(js: Json, pieces: seq<string>, buffer: string, kq: KetQua)
    requires Tach(buffer) == ([], buffer)
    ensures DocCac(js, pieces, buffer, kq) ==
            (Tach(buffer + Gop(pieces)).1, XuLyCac(js, Tach(buffer + Gop(pieces)).0, kq))
    decreases |pieces|
  {
    if pieces == [] {
      assert buffer + Gop(pieces) == buffer;
    } else {
      var x := buffer + pieces[0];
      var t := Tach(x);
      DuKhongNgat(x);
      assert buffer + Gop(pieces) == x + Gop(pieces[1..]);
      TachNoi(x, Gop(pieces[1..]));
      PiecesDoNotMatter(js, pieces[1..], t.1, XuLyCac(js, t.0, kq));
      XuLyNoi(js, t.0, Tach(t.1 + Gop(pieces[1..])).0, kq);
    }
  }

  lemma {:induction false} DuKhongNgat(s: string)
    ensures Tach(Tach(s).1) == ([], Tach(s).1)
    decreases |s|
  {
    var i := NgatDau(s);
    if i < |s| { DuKhongNgat(s[i + 2..]); }
  }

  // ---------------------------------------------------------------- round trip

  /** Printed and parsed back the value is the same; its text has no raw newline and no outer whitespace. */
  ghost predicate DocLai(js: Json, v: GiaTri) {
    js.doc(js.viet(v)) == v && GonJs(js.viet(v)) && '\n' !in js.viet(v)
  }

  /** So it is for the values the server prints. */
  ghost predicate JsonDung(js: Json) {
    && (forall token :: DocLai(js, Mieng(token)))
    && (forall nguon, hanhDong :: DocLai(js, Ket(nguon, hanhDong)))
  }

  lemma {:induction false} NgatSau(a: string, b: string)
    requires '\n' !in a && a != []
    ensures NgatDau(a + "\n\n" + b) == |a|
  {
    var s := a + "\n\n" + b;
    assert s[0] == a[0] && a[0] in a;
    if |a| == 1 {
      assert s[1..] == "\n\n" + b;
    } else {
      assert s[1..] == a[1..] + "\n\n" + b;
      NgatSau(a[1..], b);
    }
  }

  lemma TachSuKien(a: string, b: string)
    requires '\n' !in a && a != []
    ensures Tach(a + "\n\n" + b) == ([a] + Tach(b).0, Tach(b).1)
  {
    var s := a + "\n\n" + b;
    NgatSau(a, b);
    TachTai(s, |a|);
    assert s[..|a|] == a && s[|a| + 2..] == b;
  }

  lemma DongDuLieu(j: string)
    requires GonJs(j)
    ensures TrimJs("data: " + j) == "data: " + j
    ensures ("data: " + j)[..5] == "data:" && TrimJs(("data: " + j)[5..]) == j
  {
    var a := "data: " + j;
    NgoaiKhoang('d', KHOANG_TRANG_JS);
    assert a[0] == 'd' && a[|a| - 1] == j[|j| - 1];
    TrimJsGiu(a);
    assert a[..5] == "data:" && a[5..] == [' '] + j;
    TrimJsGiu(j);
  }

  lemma XuLySuKien(js: Json, p: GiaTri, kq: KetQua)
    requires DocLai(js, p)
    ensures XuLy(js, "data: " + js.viet(p), kq) == NhanPayload(p, kq)
  {
    var j := js.viet(p);
    DongDuLieu(j);
  }

  function NhanCac(ps: seq<GiaTri>, kq: KetQua): KetQua {
    if ps == [] then kq else NhanCac(ps[1..], NhanPayload(ps[0], kq))
  }

  lemma {:induction false} ClientInvertsServer(js: Json, ps: seq<GiaTri>, kq: KetQua)
    requires forall p :: p in ps ==> DocLai(js, p)
    ensures Tach(CacSuKien(js, ps)).1 == "" && XuLyCac(js, Tach(CacSuKien(js, ps)).0, kq) == NhanCac(ps, kq)
    decreases |ps|
  {
    if ps != [] {
      var a, b := "data: " + js.viet(ps[0]), CacSuKien(js, ps[1..]);
      assert ps[0] in ps && DocLai(js, ps[0]);
      assert '\n' !in a;
      TachSuKien(a, b);
      assert CacSuKien(js, ps) == a + "\n\n" + b;
      XuLySuKien(js, ps[0], kq);
      ClientInvertsServer(js, ps[1..], NhanPayload(ps[0], kq));
      assert ([a] + Tach(b).0)[1..] == Tach(b).0;
    }
  }

  function KhacRong(tokens: seq<string>): seq<string> {
    if tokens == [] then [] else (if tokens[0] == "" then [] else [tokens[0]]) + KhacRong(tokens[1..])
  }

  lemma NhanDau(p: GiaTri, ps: seq<GiaTri>, kq: KetQua)
    ensures NhanCac([p] + ps, kq) == NhanCac(ps, NhanPayload(p, kq))
  {
    assert ([p] + ps)[1..] == ps;
  }

  function CacChu(ss: seq<string>): seq<GiaTri> { if ss == [] then [] else [Chu(ss[0])] + CacChu(ss[1..]) }

  lemma TenTruong()
    ensures "delta" != "done" && "done" != "nguon" && "done" != "hanhDong" && "nguon" != "hanhDong"
    ensures "delta" != "nguon" && "delta" != "hanhDong"
  {
    assert "delta"[1] != "done"[1] && "done"[0] != "nguon"[0] && "done"[0] != "hanhDong"[0];
    assert "nguon"[0] != "hanhDong"[0] && "delta"[0] != "nguon"[0] && "delta"[0] != "hanhDong"[0];
  }

  lemma NhanMieng(token: string, kq: KetQua)
    ensures NhanPayload(Mieng(token), kq) ==
            kq.(deltas := if token == "" then kq.deltas else kq.deltas + [Chu(token)])
  {
    TenTruong();
    assert Doc(Mieng(token), "delta") == Some(Chu(token)) && Doc(Mieng(token), "done") == None;
  }

  lemma NhanKet(nguon: seq<NguonTraLoi>, hanhDong: Option<HanhDongCho>, kq: KetQua)
    ensures NhanPayload(Ket(nguon, hanhDong), kq) ==
            KetQua(kq.deltas, Mang(CacNguonJson(nguon)), HanhDongJson(hanhDong))
  {
    TenTruong();
    var ket := Ket(nguon, hanhDong);
    assert Doc(ket, "delta") == None && Doc(ket, "done") == Some(Co(true));
    assert Doc(ket, "nguon") == Some(Mang(CacNguonJson(nguon))) && Doc(ket, "hanhDong") == Some(HanhDongJson(hanhDong));
  }

  /** One token is received, an empty one passed over. */
  lemma NhanMotToken(token: string, sau: seq<string>, kq: KetQua)
    ensures var k := NhanPayload(Mieng(token), kq);
            k.nguon == kq.nguon && k.hanhDong == kq.hanhDong &&
            k.deltas + CacChu(KhacRong(sau)) == kq.deltas + CacChu(KhacRong([token] + sau))
  {
    assert ([token] + sau)[1..] == sau;
    NhanMieng(token, kq);
    if token == "" {
      assert [] + KhacRong(sau) == KhacRong(sau);
    } else {
      assert ([token] + KhacRong(sau))[1..] == KhacRong(sau);
      AppendAssociative(kq.deltas, [Chu(token)], CacChu(KhacRong(sau)));
    }
  }

  lemma {:induction false} NhanTokens(tokens: seq<string>, nguon: seq<NguonTraLoi>, hanhDong: Option<HanhDongCho>,
      kq: KetQua)
    ensures NhanCac(CacMieng(tokens) + [Ket(nguon, hanhDong)], kq) ==
            KetQua(kq.deltas + CacChu(KhacRong(tokens)), Mang(CacNguonJson(nguon)), HanhDongJson(hanhDong))
    decreases |tokens|
  {
    var ket := Ket(nguon, hanhDong);
    if tokens == [] {
      assert CacMieng(tokens) + [ket] == [ket] + [] && kq.deltas + [] == kq.deltas;
      NhanDau(ket, [], kq);
      NhanKet(nguon, hanhDong, kq);
    } else {
      var t, sau := tokens[0], tokens[1..];
      assert tokens == [t] + sau;
      AppendAssociative([Mieng(t)], CacMieng(sau), [ket]);
      NhanDau(Mieng(t), CacMieng(sau) + [ket], kq);
      NhanMotToken(t, sau, kq);
      NhanTokens(sau, nguon, hanhDong, NhanPayload(Mieng(t), kq));
    }
  }

  lemma {:induction false} MiengDocLai(js: Json, tokens: seq<string>)
    requires JsonDung(js)
    ensures forall p :: p in CacMieng(tokens) ==> DocLai(js, p)
  {
    if tokens != [] {
      MiengDocLai(js, tokens[1..]);
      assert DocLai(js, Mieng(tokens[0]));
    }
  }

  /** For every list of tokens, and however the characters of the stream are cut into pieces, the page
      gets exactly the non-empty tokens in order, then the sources and the proposed action as the server
      printed them, and nothing is left in the buffer. */
  lemma StreamRoundTrip(js: Json, tokens: seq<string>, nguon: seq<NguonTraLoi>, hanhDong: Option<HanhDongCho>,
      pieces: seq<string>)
    requires JsonDung(js) && Gop(pieces) == CacSuKien(js, CacMieng(tokens) + [Ket(nguon, hanhDong)])
    ensures DocCac(js, pieces, "", RONG) ==
            ("", KetQua(CacChu(KhacRong(tokens)), Mang(CacNguonJson(nguon)), HanhDongJson(hanhDong)))
  {
    var ps := CacMieng(tokens) + [Ket(nguon, hanhDong)];
    PiecesDoNotMatter(js, pieces, "", RONG);
    assert "" + Gop(pieces) == CacSuKien(js, ps);
    MiengDocLai(js, tokens);
    assert DocLai(js, Ket(nguon, hanhDong));
    ClientInvertsServer(js, ps, RONG);
    NhanTokens(tokens, nguon, hanhDong, RONG);
    assert [] + CacChu(KhacRong(tokens)) == CacChu(KhacRong(tokens));
  }

  // ---------------------------------------------------------------- what the page can read of it

  /** The page reads these properties of a source and of an action. */
  const TEN_NGUON := ["maTaiLieu", "tenFile", "trang"]
  const TEN_HANH_DONG := ["loai", "maLopHocKy", "moTa"]

  /** Read under those names, the value is the server's source. */
  predicate NguonToi(v: GiaTri, n: NguonTraLoi) {
    && Doc(v, TEN_NGUON[0]) == Some(So(n.maTaiLieu)) && Doc(v, TEN_NGUON[1]) == Some(Chu(n.tenFile))
    && Doc(v, TEN_NGUON[2]) == Some(So(n.trang))
  }

  predicate HanhDongToi(v: GiaTri, h: Option<HanhDongCho>) {
    match h
    case None => v == Rong
    case Some(x) =>
      && Doc(v, TEN_HANH_DONG[0]) == Some(Chu(x.loai)) && Doc(v, TEN_HANH_DONG[1]) == Some(So(x.maLopHocKy))
      && Doc(v, TEN_HANH_DONG[2]) == Some(Chu(x.moTa))
  }

  /** The page reads the server's sources and its action. */
  ghost predicate KetToi(kq: KetQua, nguon: seq<NguonTraLoi>, hanhDong: Option<HanhDongCho>) {
    && kq.nguon.Mang? && |kq.nguon.phanTu| == |nguon|
    && (forall i :: 0 <= i < |nguon| ==> NguonToi(kq.nguon.phanTu[i], nguon[i]))
    && HanhDongToi(kq.hanhDong, hanhDong)
  }

  /** The keys under which the page shows the sources, one line for each. */
  function TenFileHien(nguon: seq<GiaTri>): set<Option<GiaTri>> { set v | v in nguon :: Doc(v, "tenFile") }

  lemma NguonKhongTen(n: NguonTraLoi)
    ensures forall ten :: ten in TEN_NGUON ==> Doc(NguonJson(n), ten) == None
  {
    forall ten | ten in TEN_NGUON ensures ten !in NguonJson(n).truong {
      assert "MaTaiLieu"[0] == 'M' && "TenFile"[0] == 'T' && "Trang"[0] == 'T';
      assert "maTaiLieu"[0] == 'm' && "tenFile"[0] == 't' && "trang"[0] == 't';
      assert ten[0] == 'm' || ten[0] == 't';
    }
  }

  lemma HanhDongKhongTen(h: HanhDongCho)
    ensures forall ten :: ten in TEN_HANH_DONG ==> Doc(HanhDongJson(Some(h)), ten) == None
  {
    forall ten | ten in TEN_HANH_DONG ensures ten !in HanhDongJson(Some(h)).truong {
      assert "Loai"[0] == 'L' && "MaLopHocKy"[0] == 'M' && "MoTa"[0] == 'M';
      assert "loai"[0] == 'l' && "maLopHocKy"[0] == 'm' && "moTa"[0] == 'm';
      assert ten[0] == 'm' || ten[0] == 'l';
    }
  }

  /** The page finds none of the properties it reads of a source or an action, since the server prints them
      under other names. So it gets the server's sources and action exactly when there are none; otherwise
      all sources make one line without a name, and the action names no class. */
  lemma ClosingEventExact(js: Json, tokens: seq<string>, nguon: seq<NguonTraLoi>, hanhDong: Option<HanhDongCho>,
      pieces: seq<string>)
    requires JsonDung(js) && Gop(pieces) == CacSuKien(js, CacMieng(tokens) + [Ket(nguon, hanhDong)])
    ensures var kq := DocCac(js, pieces, "", RONG).1;
            && (KetToi(kq, nguon, hanhDong) <==> nguon == [] && hanhDong.None?)
            && kq.nguon.Mang? && |kq.nguon.phanTu| == |nguon|
            && (forall i, ten :: 0 <= i < |nguon| && ten in TEN_NGUON ==> Doc(kq.nguon.phanTu[i], ten) == None)
            && (nguon != [] ==> TenFileHien(kq.nguon.phanTu) == {None})
            && (hanhDong.Some? ==> forall ten :: ten in TEN_HANH_DONG ==> Doc(kq.hanhDong, ten) == None)
  {
    StreamRoundTrip(js, tokens, nguon, hanhDong, pieces);
    var xs := CacNguonJson(nguon);
    forall i, ten | 0 <= i < |nguon| && ten in TEN_NGUON ensures Doc(xs[i], ten) == None { NguonKhongTen(nguon[i]); }
    if hanhDong.Some? {
      HanhDongKhongTen(hanhDong.value);
      assert TEN_HANH_DONG[0] in TEN_HANH_DONG;
    }
    MotDongNguon(nguon);
    if nguon != [] { assert TEN_NGUON[0] in TEN_NGUON && Doc(xs[0], TEN_NGUON[0]) == None; }
  }

  lemma MotDongNguon(nguon: seq<NguonTraLoi>)
    ensures nguon != [] ==> TenFileHien(CacNguonJson(nguon)) == {None}
  {
    var xs := CacNguonJson(nguon);
    assert TEN_NGUON[1] == "tenFile";
    forall v | v in xs ensures Doc(v, "tenFile") == None {
      var i :| 0 <= i < |xs| && xs[i] == v;
      NguonKhongTen(nguon[i]);
    }
    if nguon != [] { assert xs[0] in xs; }
  }
}
