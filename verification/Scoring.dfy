/** Preference score of a class. Every term is a small integer. */
module Scoring {
  import opened Wrappers
  import opened LichHoc
  import opened Entities
  import opened Text

  function TenGiangVien(lop: LopHoc, c: YeuCau): string {
    if lop.giangViens != [] && lop.giangViens[0] in c.hoTen then c.hoTen[lop.giangViens[0]] else ""
  }

  /** The first named preference for this course. */
  function UuTienCua(ds: seq<UuTien>, c: YeuCau, tenMonHoc: string): Option<UuTien> {
    if ds == [] then None
    else if c.khop(tenMonHoc, ds[0].tenMonHoc) then Some(ds[0])
    else UuTienCua(ds[1..], c, tenMonHoc)
  }

  function DiemUuTien(lop: LopHoc, c: YeuCau, tenMonHoc: string): int {
    match UuTienCua(c.thuTuUuTien, c, tenMonHoc)
    case None => 0
    case Some(u) =>
      (if !Blank(u.giangVien) && c.khop(TenGiangVien(lop, c), u.giangVien) then 100 else 0) +
      (if !Blank(u.tenLop) && c.khop(lop.tenLop, u.tenLop) then 50 else 0)
  }

  predicate BiTranh(lop: LopHoc, c: YeuCau, tenMonHoc: string) {
    exists x :: x in c.giangVienKhongMuonHoc && c.khop(TenGiangVien(lop, c), x.giangVien) &&
                (Blank(x.tenMonHoc) || c.khop(tenMonHoc, x.tenMonHoc))
  }

  function SoTietTrung(tiets: seq<int>, b: Buoi): nat {
    if tiets == [] then 0
    else (if b.tietBatDau <= tiets[0] <= b.tietKetThuc then 1 else 0) + SoTietTrung(tiets[1..], b)
  }

  function DiemBuoi(b: Buoi, c: YeuCau): int {
    (if (c.buoiUuTien == Sang && b.tietBatDau <= 5) || (c.buoiUuTien == Chieu && b.tietBatDau > 5) then 3 else 0)
    - (if b.thu in c.tranhThu then 30 else 0)
    - SoTietTrung(c.tranhTiet, b) * 30
  }

  function DiemCacBuoi(bs: seq<Buoi>, c: YeuCau): int {
    if bs == [] then 0 else DiemCacBuoi(bs[..|bs| - 1], c) + DiemBuoi(bs[|bs| - 1], c)
  }

  function Score(lop: LopHoc, tenMonHoc: string, c: YeuCau): int {
    DiemUuTien(lop, c, tenMonHoc) - (if BiTranh(lop, c, tenMonHoc) then 200 else 0) + DiemCacBuoi(lop.lichHocs, c)
  }

  method ScoreLop(lop: LopHoc, tenMonHoc: string, c: YeuCau) returns (score: int)
    ensures score == Score(lop, tenMonHoc, c)
  {
    score := 0;
    var gv := TenGiangVien(lop, c);
    var monUuTien := UuTienCua(c.thuTuUuTien, c, tenMonHoc);
    if monUuTien.Some? {
      var u := monUuTien.value;
      if !Blank(u.giangVien) && c.khop(gv, u.giangVien) { score := score + 100; }
      if !Blank(u.tenLop) && c.khop(lop.tenLop, u.tenLop) { score := score + 50; }
    }
    if BiTranh(lop, c, tenMonHoc) { score := score - 200; }
    ghost var dau := score;
    for i := 0 to |lop.lichHocs|
      invariant score == dau + DiemCacBuoi(lop.lichHocs[..i], c)
    {
      var buoi := lop.lichHocs[i];
      assert lop.lichHocs[..i + 1][..i] == lop.lichHocs[..i];
      var laSang := buoi.tietBatDau <= 5;
      if c.buoiUuTien == Sang && laSang { score := score + 3; }
      else if c.buoiUuTien == Chieu && !laSang { score := score + 3; }
      if buoi.thu in c.tranhThu { score := score - 30; }
      var soTietTrung := SoTietTrung(c.tranhTiet, buoi);
      score := score - soTietTrung * 30;
    }
    assert lop.lichHocs[..|lop.lichHocs|] == lop.lichHocs;
  }

  // ---------------------------------------------------------------- what each wish is worth

  /** How many sessions have property p. */
  function SoBuoi(bs: seq<Buoi>, p: Buoi -> bool): nat {
    if bs == [] then 0 else SoBuoi(bs[..|bs| - 1], p) + if p(bs[|bs| - 1]) then 1 else 0
  }

  function VaoThu(thu: int): Buoi -> bool { (b: Buoi) => b.thu == thu }
  function GapTiet(t: int): Buoi -> bool { (b: Buoi) => b.tietBatDau <= t <= b.tietKetThuc }
  function BuoiSang(): Buoi -> bool { (b: Buoi) => b.tietBatDau <= 5 }
  function BuoiChieu(): Buoi -> bool { (b: Buoi) => b.tietBatDau > 5 }

  /** gv is the name of the class's first lecturer, "" if there is none with a known name. */
  ghost predicate GiangVienDau(lop: LopHoc, c: YeuCau, gv: string) {
    if lop.giangViens != [] && lop.giangViens[0] in c.hoTen then gv == c.hoTen[lop.giangViens[0]] else gv == ""
  }

  /** The wish is to avoid this lecturer, in this course or in every course. */
  ghost predicate TranhNguoi(c: YeuCau, x: TranhGiangVien, gv: string, tenMonHoc: string) {
    c.khop(gv, x.giangVien) && (Blank(x.tenMonHoc) || c.khop(tenMonHoc, x.tenMonHoc))
  }

  /** Without wishes every class scores 0. */
  lemma NoWishes(lop: LopHoc, tenMonHoc: string, c: YeuCau)
    requires c.thuTuUuTien == [] && c.giangVienKhongMuonHoc == [] && c.tranhThu == [] && c.tranhTiet == []
    requires c.buoiUuTien == KhongRo
    ensures Score(lop, tenMonHoc, c) == 0
  {
    KhongDiemBuoi(lop.lichHocs, c);
  }

  lemma {:induction false} KhongDiemBuoi(bs: seq<Buoi>, c: YeuCau)
    requires c.tranhThu == [] && c.tranhTiet == [] && c.buoiUuTien == KhongRo
    ensures DiemCacBuoi(bs, c) == 0
  {
    if bs != [] { KhongDiemBuoi(bs[..|bs| - 1], c); }
  }

  /** One more lecturer to avoid costs a class 200 points when it is meant for the class's first lecturer in
      this course and no earlier wish was, and nothing otherwise. */
  lemma AvoidingOneLecturer(lop: LopHoc, tenMonHoc: string, c: YeuCau, x: TranhGiangVien, gv: string)
    requires GiangVienDau(lop, c, gv)
    ensures var cu := c.giangVienKhongMuonHoc;
            Score(lop, tenMonHoc, c.(giangVienKhongMuonHoc := cu + [x])) ==
            Score(lop, tenMonHoc, c) -
            (if TranhNguoi(c, x, gv, tenMonHoc) && !exists y :: y in cu && TranhNguoi(c, y, gv, tenMonHoc)
             then 200 else 0)
  {
    var cu := c.giangVienKhongMuonHoc;
    var c' := c.(giangVienKhongMuonHoc := cu + [x]);
    UuTienSame(c.thuTuUuTien, c, c', tenMonHoc);
    CungDiemBuoi(lop.lichHocs, c, c');
    assert forall y :: y in cu + [x] <==> y in cu || y == x;
    assert BiTranh(lop, c, tenMonHoc) <==> exists y :: y in cu && TranhNguoi(c, y, gv, tenMonHoc);
    assert BiTranh(lop, c', tenMonHoc) <==> exists y :: y in cu + [x] && TranhNguoi(c, y, gv, tenMonHoc);
  }

  lemma {:induction false} CungDiemBuoi(bs: seq<Buoi>, c: YeuCau, d: YeuCau)
    requires c.buoiUuTien == d.buoiUuTien && c.tranhThu == d.tranhThu && c.tranhTiet == d.tranhTiet
    ensures DiemCacBuoi(bs, c) == DiemCacBuoi(bs, d)
  {
    if bs != [] { CungDiemBuoi(bs[..|bs| - 1], c, d); }
  }

  /** Of the named preferences only the first that matches the course counts: 100 points for its lecturer and
      50 for its class name, each if it is given and matches. */
  lemma FirstPreferenceCounts(lop: LopHoc, tenMonHoc: string, c: YeuCau, i: nat, gv: string)
    requires GiangVienDau(lop, c, gv) && i <= |c.thuTuUuTien|
    requires forall j :: 0 <= j < i ==> !c.khop(tenMonHoc, c.thuTuUuTien[j].tenMonHoc)
    requires i < |c.thuTuUuTien| ==> c.khop(tenMonHoc, c.thuTuUuTien[i].tenMonHoc)
    ensures Score(lop, tenMonHoc, c) - Score(lop, tenMonHoc, c.(thuTuUuTien := [])) ==
            if i == |c.thuTuUuTien| then 0
            else
              var u := c.thuTuUuTien[i];
              (if !Blank(u.giangVien) && c.khop(gv, u.giangVien) then 100 else 0) +
              (if !Blank(u.tenLop) && c.khop(lop.tenLop, u.tenLop) then 50 else 0)
  {
    var c' := c.(thuTuUuTien := []);
    UuTienDau(c.thuTuUuTien, c, tenMonHoc, i);
    CungDiemBuoi(lop.lichHocs, c, c');
    TranhSame(lop, c, c', tenMonHoc);
  }

  lemma {:induction false} UuTienDau(ds: seq<UuTien>, c: YeuCau, tenMonHoc: string, i: nat)
    requires i <= |ds| && forall j :: 0 <= j < i ==> !c.khop(tenMonHoc, ds[j].tenMonHoc)
    requires i < |ds| ==> c.khop(tenMonHoc, ds[i].tenMonHoc)
    ensures UuTienCua(ds, c, tenMonHoc) == if i == |ds| then None else Some(ds[i])
  {
    if i > 0 { UuTienDau(ds[1..], c, tenMonHoc, i - 1); }
  }

  /** One more weekday to avoid costs a class 30 points for each of its sessions on it, and nothing if it was
      to be avoided already. */
  lemma AvoidingOneWeekday(lop: LopHoc, tenMonHoc: string, c: YeuCau, thu: int)
    ensures Score(lop, tenMonHoc, c.(tranhThu := c.tranhThu + [thu])) ==
            Score(lop, tenMonHoc, c) - if thu in c.tranhThu then 0 else 30 * SoBuoi(lop.lichHocs, VaoThu(thu))
  {
    var c' := c.(tranhThu := c.tranhThu + [thu]);
    AvoidingOneWeekdaySessions(lop.lichHocs, c, thu, VaoThu(thu));
    UuTienSame(c.thuTuUuTien, c, c', tenMonHoc);
    TranhSame(lop, c, c', tenMonHoc);
  }

  lemma {:induction false} AvoidingOneWeekdaySessions(bs: seq<Buoi>, c: YeuCau, thu: int, p: Buoi -> bool)
    requires forall b :: p(b) <==> b.thu == thu
    ensures DiemCacBuoi(bs, c.(tranhThu := c.tranhThu + [thu])) ==
            DiemCacBuoi(bs, c) - if thu in c.tranhThu then 0 else 30 * SoBuoi(bs, p)
  {
    if bs != [] {
      AvoidingOneWeekdaySessions(bs[..|bs| - 1], c, thu, p);
      var b := bs[|bs| - 1];
      assert b.thu in c.tranhThu + [thu] <==> b.thu in c.tranhThu || b.thu == thu;
    }
  }

  /** The preferred half day brings a class 3 points for each session that begins in it: up to period 5, or
      after it. */
  lemma HalfDayPreference(lop: LopHoc, tenMonHoc: string, c: YeuCau)
    ensures Score(lop, tenMonHoc, c) - Score(lop, tenMonHoc, c.(buoiUuTien := KhongRo)) ==
            match c.buoiUuTien
            case Sang => 3 * SoBuoi(lop.lichHocs, BuoiSang())
            case Chieu => 3 * SoBuoi(lop.lichHocs, BuoiChieu())
            case KhongRo => 0
  {
    match c.buoiUuTien
    case Sang => HalfDayScore(lop, tenMonHoc, c, c.(buoiUuTien := KhongRo), BuoiSang());
    case Chieu => HalfDayScore(lop, tenMonHoc, c, c.(buoiUuTien := KhongRo), BuoiChieu());
    case KhongRo =>
      assert c.(buoiUuTien := KhongRo) == c;
  }

  lemma HalfDayScore(lop: LopHoc, tenMonHoc: string, c: YeuCau, d: YeuCau, p: Buoi -> bool)
    requires c.buoiUuTien != KhongRo && d == c.(buoiUuTien := KhongRo)
    requires forall b :: p(b) <==> if c.buoiUuTien == Sang then b.tietBatDau <= 5 else b.tietBatDau > 5
    ensures Score(lop, tenMonHoc, c) == Score(lop, tenMonHoc, d) + 3 * SoBuoi(lop.lichHocs, p)
  {
    HalfDaySessions(lop.lichHocs, c, d, p);
    UuTienSame(c.thuTuUuTien, c, d, tenMonHoc);
    TranhSame(lop, c, d, tenMonHoc);
  }

  lemma {:induction false} HalfDaySessions(bs: seq<Buoi>, c: YeuCau, d: YeuCau, p: Buoi -> bool)
    requires c.buoiUuTien != KhongRo && d == c.(buoiUuTien := KhongRo)
    requires forall b :: p(b) <==> if c.buoiUuTien == Sang then b.tietBatDau <= 5 else b.tietBatDau > 5
    ensures DiemCacBuoi(bs, c) == DiemCacBuoi(bs, d) + 3 * SoBuoi(bs, p)
  {
    if bs != [] { HalfDaySessions(bs[..|bs| - 1], c, d, p); }
  }

  /** One more period to avoid costs a class 30 points for each of its sessions that meets then. */
  lemma AvoidingOnePeriod(lop: LopHoc, tenMonHoc: string, c: YeuCau, t: int)
    ensures Score(lop, tenMonHoc, c.(tranhTiet := [t] + c.tranhTiet)) ==
            Score(lop, tenMonHoc, c) - 30 * SoBuoi(lop.lichHocs, GapTiet(t))
  {
    var c' := c.(tranhTiet := [t] + c.tranhTiet);
    AvoidingOnePeriodSessions(lop.lichHocs, c, t, GapTiet(t));
    UuTienSame(c.thuTuUuTien, c, c', tenMonHoc);
    TranhSame(lop, c, c', tenMonHoc);
  }

  lemma {:induction false} AvoidingOnePeriodSessions(bs: seq<Buoi>, c: YeuCau, t: int, p: Buoi -> bool)
    requires forall b :: p(b) <==> b.tietBatDau <= t <= b.tietKetThuc
    ensures DiemCacBuoi(bs, c.(tranhTiet := [t] + c.tranhTiet)) == DiemCacBuoi(bs, c) - 30 * SoBuoi(bs, p)
  {
    if bs != [] {
      AvoidingOnePeriodSessions(bs[..|bs| - 1], c, t, p);
      assert ([t] + c.tranhTiet)[1..] == c.tranhTiet;
    }
  }

  lemma TranhSame(lop: LopHoc, c: YeuCau, d: YeuCau, tenMonHoc: string)
    requires c.khop == d.khop && c.hoTen == d.hoTen && c.giangVienKhongMuonHoc == d.giangVienKhongMuonHoc
    ensures BiTranh(lop, c, tenMonHoc) <==> BiTranh(lop, d, tenMonHoc)
  {
  }

  lemma {:induction false} UuTienSame(ds: seq<UuTien>, c: YeuCau, d: YeuCau, tenMonHoc: string)
    requires c.khop == d.khop
    ensures UuTienCua(ds, c, tenMonHoc) == UuTienCua(ds, d, tenMonHoc)
  {
    if ds != [] { UuTienSame(ds[1..], c, d, tenMonHoc); }
  }

  // ---------------------------------------------------------------- an avoided lecturer against another one

  /** The sessions fall on the same weekdays and periods. */
  ghost predicate CungKhung(a: seq<Buoi>, b: seq<Buoi>) {
    && |a| == |b|
    && forall i :: 0 <= i < |a| ==> a[i].thu == b[i].thu && a[i].tietBatDau == b[i].tietBatDau &&
                                    a[i].tietKetThuc == b[i].tietKetThuc
  }

  lemma {:induction false} CungKhungCungDiem(a: seq<Buoi>, b: seq<Buoi>, c: YeuCau)
    requires CungKhung(a, b)
    ensures DiemCacBuoi(a, c) == DiemCacBuoi(b, c)
  {
    if a != [] {
      var x, y := a[|a| - 1], b[|b| - 1];
      CungKhungCungDiem(a[..|a| - 1], b[..|b| - 1], c);
      CungSoTiet(c.tranhTiet, x, y);
    }
  }

  lemma {:induction false} CungSoTiet(tiets: seq<int>, x: Buoi, y: Buoi)
    requires x.tietBatDau == y.tietBatDau && x.tietKetThuc == y.tietKetThuc
    ensures SoTietTrung(tiets, x) == SoTietTrung(tiets, y)
  {
    if tiets != [] { CungSoTiet(tiets[1..], x, y); }
  }

  ghost predicate MuonTranh(lop: LopHoc, c: YeuCau, tenMonHoc: string) {
    exists x, gv :: x in c.giangVienKhongMuonHoc && GiangVienDau(lop, c, gv) && TranhNguoi(c, x, gv, tenMonHoc)
  }

  /** Of two classes at the same times, one whose lecturer is to be avoided scores at least 50 points less
      than one whose lecturer is not, whatever else is preferred. */
  lemma AvoidedScoresLess(x: LopHoc, y: LopHoc, tenMonHoc: string, c: YeuCau)
    requires CungKhung(x.lichHocs, y.lichHocs) && MuonTranh(x, c, tenMonHoc) && !MuonTranh(y, c, tenMonHoc)
    ensures Score(x, tenMonHoc, c) + 50 <= Score(y, tenMonHoc, c)
  {
    CungKhungCungDiem(x.lichHocs, y.lichHocs, c);
    assert GiangVienDau(x, c, TenGiangVien(x, c)) && GiangVienDau(y, c, TenGiangVien(y, c));
    assert BiTranh(x, c, tenMonHoc);
    if BiTranh(y, c, tenMonHoc) {
      var w :| w in c.giangVienKhongMuonHoc && c.khop(TenGiangVien(y, c), w.giangVien) &&
               (Blank(w.tenMonHoc) || c.khop(tenMonHoc, w.tenMonHoc));
      assert TranhNguoi(c, w, TenGiangVien(y, c), tenMonHoc);
    }
  }
}
