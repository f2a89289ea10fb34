/** Sessions and the overlap test that the solver, the registrar and the class catalogue share. */
module LichHoc {
  import opened Math
  import opened Wrappers

  /** One weekly session. `thu` is the weekday (2 = Monday ... 8 = Sunday), the periods are an
      inclusive range, and a date is the number of days since a Monday. */
  datatype Buoi = Buoi(
    thu: int, tietBatDau: int, tietKetThuc: int,
    ngayBatDau: int, ngayKetThuc: int, phongHoc: Option<string>)

  predicate BuoiTrungNhau(a: Buoi, b: Buoi) {
    && a.thu == b.thu
    && a.tietBatDau <= b.tietKetThuc && b.tietBatDau <= a.tietKetThuc
    && a.ngayBatDau <= b.ngayKetThuc && b.ngayBatDau <= a.ngayKetThuc
  }

  /** Some session of a overlaps some session of b. */
  predicate TrungNhau(a: seq<Buoi>, b: seq<Buoi>) {
    exists x :: x in a && TrungVoi(x, b)
  }

  predicate TrungVoi(x: Buoi, b: seq<Buoi>) {
    exists y :: y in b && BuoiTrungNhau(x, y)
  }

  method KiemTraTrungNhau(a: seq<Buoi>, b: seq<Buoi>) returns (trung: bool)
    ensures trung <==> exists x, y :: x in a && y in b && BuoiTrungNhau(x, y)
    ensures trung <==> TrungNhau(a, b)
  {
    for i := 0 to |a|
      invariant forall x, y :: x in a[..i] && y in b ==> !BuoiTrungNhau(x, y)
    {
      for j := 0 to |b|
        invariant forall y :: y in b[..j] ==> !BuoiTrungNhau(a[i], y)
      {
        if BuoiTrungNhau(a[i], b[j]) {
          assert a[i] in a && b[j] in b;
          return true;
        }
      }
      assert b[..|b|] == b;
    }
    assert a[..|a|] == a;
    return false;
  }

  lemma TrungNhauSymmetric(a: seq<Buoi>, b: seq<Buoi>)
    ensures TrungNhau(a, b) <==> TrungNhau(b, a)
  {
    if TrungNhau(a, b) { TrungNhauOneWay(a, b); }
    if TrungNhau(b, a) { TrungNhauOneWay(b, a); }
  }

  lemma TrungNhauOneWay(a: seq<Buoi>, b: seq<Buoi>)
    requires TrungNhau(a, b)
    ensures TrungNhau(b, a)
  {
    var x :| x in a && TrungVoi(x, b);
    var y :| y in b && BuoiTrungNhau(x, y);
    assert BuoiTrungNhau(y, x);
    assert TrungVoi(y, a);
  }

  /** A list of sessions overlaps a concatenation exactly when it overlaps a part. */
  lemma TrungNhauConcat(a: seq<Buoi>, b: seq<Buoi>, c: seq<Buoi>)
    ensures TrungNhau(a, b + c) <==> TrungNhau(a, b) || TrungNhau(a, c)
  {
    forall x ensures TrungVoi(x, b + c) <==> TrungVoi(x, b) || TrungVoi(x, c) {
      assert forall y :: y in b + c <==> y in b || y in c;
    }
  }

  // ---------------------------------------------------------------- what the test means

  function Weekday(ngay: int): int { 2 + ngay % 7 }

  /** The session takes place on this date in this period. */
  predicate Occupies(b: Buoi, ngay: int, tiet: int) {
    && b.ngayBatDau <= ngay <= b.ngayKetThuc && Weekday(ngay) == b.thu
    && b.tietBatDau <= tiet <= b.tietKetThuc
  }

  ghost predicate ShareCell(a: Buoi, b: Buoi) {
    exists ngay, tiet :: Occupies(a, ngay, tiet) && Occupies(b, ngay, tiet)
  }

  predicate WellFormed(b: Buoi) {
    2 <= b.thu <= 8 && b.tietBatDau <= b.tietKetThuc && b.ngayBatDau <= b.ngayKetThuc
  }

  /** The first date from `tu` on that falls on weekday `thu`. */
  function FirstDate(tu: int, thu: int): int { tu + (thu - 2 - tu) % 7 }

  lemma FirstDateIsFirst(tu: int, thu: int, ngay: int)
    requires 2 <= thu <= 8
    ensures Weekday(FirstDate(tu, thu)) == thu
    ensures tu <= ngay && Weekday(ngay) == thu ==> FirstDate(tu, thu) <= ngay
  {
    var k := (thu - 2 - tu) % 7;
    assert (tu + k) % 7 == thu - 2;
  }

  /** The test reports every cell two sessions share. It reports more: the sessions share a cell
      exactly when, besides, their weekday occurs in the common date range. */
  lemma OverlapExact(a: Buoi, b: Buoi)
    requires WellFormed(a) && WellFormed(b)
    ensures ShareCell(a, b) <==>
            BuoiTrungNhau(a, b) &&
            FirstDate(Max(a.ngayBatDau, b.ngayBatDau), a.thu) <= Min(a.ngayKetThuc, b.ngayKetThuc)
  {
    var tu := Max(a.ngayBatDau, b.ngayBatDau);
    var ngay := FirstDate(tu, a.thu);
    FirstDateIsFirst(tu, a.thu, ngay);
    if ShareCell(a, b) {
      var d, t :| Occupies(a, d, t) && Occupies(b, d, t);
      FirstDateIsFirst(tu, a.thu, d);
    }
    if BuoiTrungNhau(a, b) && ngay <= Min(a.ngayKetThuc, b.ngayKetThuc) {
      var tiet := Max(a.tietBatDau, b.tietBatDau);
      assert Occupies(a, ngay, tiet) && Occupies(b, ngay, tiet);
    }
  }

  /** Safety of the test needs no well-formedness. */
  lemma SharedCellReported(a: Buoi, b: Buoi)
    ensures ShareCell(a, b) ==> BuoiTrungNhau(a, b)
  {
  }

  /** Two Tuesday sessions whose common dates are one Monday: reported, though they never meet. */
  lemma FalseAlarm(a: Buoi, b: Buoi)
    requires a == Buoi(3, 1, 2, 0, 7, None) && b == Buoi(3, 1, 2, 7, 14, None)
    ensures WellFormed(a) && WellFormed(b) && BuoiTrungNhau(a, b) && !ShareCell(a, b)
  {
    OverlapExact(a, b);
  }
}
