/** Credits and GPA. Grades Z and GPA are hundredths, the four-point scale is in tenths. */
module TichLuyDiem {
  import opened Wrappers
  import opened Collections

  const DIEM_DAT := 400
  const DIEM_HET_CAI_THIEN := 700

  datatype DiemChu = APlus | A | BPlus | B | CPlus | C | DPlus | D | F

  function TinhDiemChuVaThang4(z: nat): (DiemChu, nat) {
    if z >= 900 then (APlus, 40)
    else if z >= 850 then (A, 40)
    else if z >= 800 then (BPlus, 35)
    else if z >= 700 then (B, 30)
    else if z >= 650 then (CPlus, 25)
    else if z >= 550 then (C, 20)
    else if z >= 500 then (DPlus, 15)
    else if z >= 400 then (D, 10)
    else (F, 0)
  }

  function Thang4(z: nat): nat { TinhDiemChuVaThang4(z).1 }

  // ---------------------------------------------------------------- rounding

  /** a / b to the nearest integer, a tie to the even one: decimal rounding in .NET. */
  function LamTron(a: nat, b: nat): nat
    requires b > 0
  {
    var q, r := a / b, a % b;
    if 2 * r < b then q else if 2 * r > b then q + 1 else if q % 2 == 0 then q else q + 1
  }

  /** At most half a unit away, and even when exactly half a unit away. */
  lemma LamTronNghia(a: nat, b: nat)
    requires b > 0
    ensures var lech := 2 * (b * LamTron(a, b)) - 2 * a;
            lech <= b && -lech <= b && (lech == b || -lech == b ==> LamTron(a, b) % 2 == 0)
  {
    var q := a / b;
    assert a == b * q + a % b;
    assert b * (q + 1) == b * q + b;
  }

  lemma NhanGiu(x: int, y: int, b: nat)
    requires b > 0
    ensures x * b <= y * b <==> x <= y
  {
    if x <= y { NhanDuong(y - x, b); } else { NhanDuong(x - y, b); }
    assert (y - x) * b == y * b - x * b && (x - y) * b == x * b - y * b;
  }

  lemma {:induction false} NhanDuong(a: nat, b: nat)
    requires b > 0
    ensures a * b >= a
  {
    if a > 0 {
      NhanDuong(a - 1, b);
      assert a * b == (a - 1) * b + b;
    }
  }

  lemma NhanPhanPhoi(b: nat, d: nat, f: nat, r: nat)
    ensures (b * f + r) * d == f * (b * d) + r * d
  {
  }

  lemma ChiaLon(b: nat, d: nat, f: nat, g: nat, r: nat, s: nat)
    requires r < b && s < d && f > g
    ensures (b * f + r) * d > (d * g + s) * b
  {
    var m := b * d;
    assert m > 0;
    NhanPhanPhoi(b, d, f, r);
    NhanPhanPhoi(d, b, g, s);
    assert d * b == m;
    NhanGiu(g + 1, f, m);
    assert (g + 1) * m == g * m + m;
    NhanGiu(s + 1, d, b);
    assert (s + 1) * b == s * b + b;
  }

  lemma ChiaBang(b: nat, d: nat, f: nat, r: nat, s: nat)
    ensures (b * f + r) * d <= (d * f + s) * b <==> r * d <= s * b
  {
    assert (b * f + r) * d == f * (b * d) + r * d;
    assert (d * f + s) * b == f * (b * d) + s * b;
  }

  lemma ThuongTang(a: nat, b: nat, c: nat, d: nat)
    requires b > 0 && d > 0 && a * d <= c * b
    ensures a / b <= c / d
    ensures a / b == c / d ==> (a % b) * d <= (c % d) * b
  {
    var f, g, r, s := a / b, c / d, a % b, c % d;
    assert a == b * f + r && c == d * g + s;
    if f > g { ChiaLon(b, d, f, g, r, s); }
    ChiaBang(b, d, f, r, s);
  }

  /** Rounding keeps the order of quotients. */
  lemma LamTronTang(a: nat, b: nat, c: nat, d: nat)
    requires b > 0 && d > 0 && a * d <= c * b
    ensures LamTron(a, b) <= LamTron(c, d)
  {
    ThuongTang(a, b, c, d);
    var r, s := a % b, c % d;
    if a / b == c / d {
      if 2 * r >= b {
        NhanGiu(b, 2 * r, d);
        assert (2 * r) * d == 2 * (r * d) && (2 * s) * b == 2 * (s * b);
        assert b * d == d * b;
        NhanGiu(d, 2 * s, b);
        if 2 * s == d {
          assert (2 * s) * b == d * b;
          NhanGiu(2 * r, b, d);
        }
      }
    }
  }

  // ---------------------------------------------------------------- accumulation

  /** A graded registration: the course, its credits, the grade. */
  datatype Dong = Dong(maMonHoc: nat, soTinChi: nat, z: nat)

  /** The first row of a course that has its highest grade. */
  function TotNhatCua(rows: seq<Dong>, mon: nat): Option<Dong> {
    if rows == [] then None
    else
      var sau := TotNhatCua(rows[1..], mon);
      if rows[0].maMonHoc != mon || (sau.Some? && sau.value.z > rows[0].z) then sau else Some(rows[0])
  }

  /** The courses in the order in which they first appear. */
  function CacMon(rows: seq<Dong>): (mons: seq<nat>)
    ensures forall m: nat :: m in mons <==> TotNhatCua(rows, m).Some?
    ensures forall i, j :: 0 <= i < j < |mons| ==> mons[i] != mons[j]
  {
    if rows == [] then []
    else
      var sau := Bo(CacMon(rows[1..]), rows[0].maMonHoc);
      assert forall i :: 0 <= i < |sau| ==> sau[i] in sau;
      [rows[0].maMonHoc] + sau
  }

  function Bo(s: seq<nat>, x: nat): (r: seq<nat>)
    requires forall i, j :: 0 <= i < j < |s| ==> s[i] != s[j]
    ensures forall m: nat :: m in r <==> m in s && m != x
    ensures forall i, j :: 0 <= i < j < |r| ==> r[i] != r[j]
  {
    if s == [] then []
    else if s[0] == x then Bo(s[1..], x)
    else
      var r := Bo(s[1..], x);
      assert forall i :: 0 <= i < |r| ==> r[i] in s[1..];
      [s[0]] + r
  }

  /** The courses passed, with the row that counts. */
  function DatCua(rows: seq<Dong>, mons: seq<nat>): seq<Dong>
    requires forall m :: m in mons ==> TotNhatCua(rows, m).Some?
  {
    if mons == [] then []
    else
      var d := TotNhatCua(rows, mons[0]).value;
      (if d.z >= DIEM_DAT then [d] else []) + DatCua(rows, mons[1..])
  }

  function TongTinChiDs(ds: seq<Dong>): nat {
    if ds == [] then 0 else ds[0].soTinChi + TongTinChiDs(ds[1..])
  }

  function TongDiemDs(ds: seq<Dong>): nat {
    if ds == [] then 0 else TongDiemDs(ds[..|ds| - 1]) + Thang4(ds[|ds| - 1].z) * ds[|ds| - 1].soTinChi
  }

  datatype TichLuy = TichLuy(tongTinChi: nat, gpa: nat)

  /** Credits of the courses passed. */
  function TongTinChi(rows: seq<Dong>): nat { TongTinChiDs(DatCua(rows, CacMon(rows))) }

  /** What is cached for a student with these graded rows. */
  function TinhTichLuy(rows: seq<Dong>): TichLuy {
    var dat := DatCua(rows, CacMon(rows));
    var tinChi := TongTinChi(rows);
    TichLuy(tinChi, if tinChi > 0 then LamTron(TongDiemDs(dat) * 10, tinChi) else 0)
  }

  method CapNhatTichLuy(rows: seq<Dong>) returns (r: TichLuy)
    ensures r == TinhTichLuy(rows)
  {
    var datList := DatCua(rows, CacMon(rows));
    var tongTinChi := TongTinChiDs(datList);
    var tongDiemNhanTinChi := 0;
    for i := 0 to |datList|
      invariant tongDiemNhanTinChi == TongDiemDs(datList[..i])
    {
      assert datList[..i + 1][..i] == datList[..i];
      var (_, thang4) := TinhDiemChuVaThang4(datList[i].z);
      tongDiemNhanTinChi := tongDiemNhanTinChi + thang4 * datList[i].soTinChi;
    }
    assert datList[..|datList|] == datList;
    r := TichLuy(tongTinChi, if tongTinChi > 0 then LamTron(tongDiemNhanTinChi * 10, tongTinChi) else 0);
  }

  // ---------------------------------------------------------------- what it counts

  ghost function Mons(rows: seq<Dong>): set<nat> {
    set d | d in rows :: d.maMonHoc
  }

  /** The best grade of each course passed. */
  ghost function ZDat(rows: seq<Dong>): map<nat, nat> {
    map m | m in Mons(rows) && TotNhatCua(rows, m).Some? && TotNhatCua(rows, m).value.z >= DIEM_DAT ::
      TotNhatCua(rows, m).value.z
  }

  ghost function TinChiDat(rows: seq<Dong>): map<nat, nat> {
    map m | m in ZDat(rows) :: TotNhatCua(rows, m).value.soTinChi
  }

  ghost function DiemDat(rows: seq<Dong>): map<nat, nat> {
    map m | m in ZDat(rows) :: Thang4(ZDat(rows)[m]) * TotNhatCua(rows, m).value.soTinChi
  }

  lemma {:induction false} TotNhatNghia(rows: seq<Dong>, mon: nat)
    ensures match TotNhatCua(rows, mon)
            case None => forall d :: d in rows ==> d.maMonHoc != mon
            case Some(t) => t in rows && t.maMonHoc == mon && forall d :: d in rows && d.maMonHoc == mon ==> d.z <= t.z
  {
    if rows != [] { TotNhatNghia(rows[1..], mon); }
  }

  /** The sums of the program, over any list of distinct courses, are the totals of those tables. */
  lemma {:induction false} TongCuaDs(rows: seq<Dong>, mons: seq<nat>, c: map<nat, nat>, p: map<nat, nat>)
    requires forall m :: m in mons ==> TotNhatCua(rows, m).Some?
    requires forall i, j :: 0 <= i < j < |mons| ==> mons[i] != mons[j]
    requires c.Keys == p.Keys == set m | m in mons && TotNhatCua(rows, m).value.z >= DIEM_DAT
    requires forall m :: m in c ==> c[m] == TotNhatCua(rows, m).value.soTinChi
    requires forall m :: m in p ==> p[m] == Thang4(TotNhatCua(rows, m).value.z) * TotNhatCua(rows, m).value.soTinChi
    ensures TongTinChiDs(DatCua(rows, mons)) == Total(c)
    ensures TongDiemDs(DatCua(rows, mons)) == Total(p)
  {
    if mons != [] {
      var m := mons[0];
      var d := TotNhatCua(rows, m).value;
      var sau := DatCua(rows, mons[1..]);
      assert m in mons && m !in mons[1..];
      if d.z >= DIEM_DAT {
        TongCuaDs(rows, mons[1..], c - {m}, p - {m});
        TotalTakeOut(c, m);
        TotalTakeOut(p, m);
        TongDiemDau(d, sau);
      } else {
        TongCuaDs(rows, mons[1..], c, p);
        assert DatCua(rows, mons) == sau;
      }
    }
  }

  lemma {:induction false} TongDiemDau(d: Dong, ds: seq<Dong>)
    ensures TongDiemDs([d] + ds) == Thang4(d.z) * d.soTinChi + TongDiemDs(ds)
  {
    var s := [d] + ds;
    if ds == [] {
      assert s[..0] == [];
    } else {
      assert s[..|s| - 1] == [d] + ds[..|ds| - 1];
      TongDiemDau(d, ds[..|ds| - 1]);
    }
  }

  lemma TongHaiDs(rows: seq<Dong>)
    ensures TongTinChiDs(DatCua(rows, CacMon(rows))) == Total(TinChiDat(rows))
    ensures TongDiemDs(DatCua(rows, CacMon(rows))) == Total(DiemDat(rows))
  {
    var mons := CacMon(rows);
    forall m: nat ensures m in mons ==> m in Mons(rows) {
      TotNhatNghia(rows, m);
    }
    TongCuaDs(rows, mons, TinChiDat(rows), DiemDat(rows));
  }

  /** Credits and GPA count each passed course once, at its best grade; the GPA is the weighted mean
      of the four-point grades, rounded to hundredths, or 0 when nothing is passed. */
  lemma CountsEachCourseOnce(rows: seq<Dong>)
    ensures var r := TinhTichLuy(rows);
            && r.tongTinChi == Total(TinChiDat(rows))
            && r.gpa == if r.tongTinChi == 0 then 0 else LamTron(Total(DiemDat(rows)) * 10, r.tongTinChi)
  {
    TongHaiDs(rows);
  }

  /** Points p and q over c credits give the same GPA. */
  ghost predicate CungGpa(c: nat, p: nat, q: nat) { c > 0 ==> LamTron(p * 10, c) == LamTron(q * 10, c) }

  lemma TichLuyBang(a: TichLuy, b: TichLuy, g: nat, h: nat)
    requires a.gpa == if a.tongTinChi == 0 then 0 else g
    requires b.gpa == if b.tongTinChi == 0 then 0 else h
    ensures a == b <==> a.tongTinChi == b.tongTinChi && (a.tongTinChi > 0 ==> g == h)
  {
  }

  /** When two lists of rows give the same credits and GPA. */
  lemma SameExactly(r: seq<Dong>, s: seq<Dong>)
    ensures var c := Total(TinChiDat(r));
            TinhTichLuy(s) == TinhTichLuy(r) <==>
            Total(TinChiDat(s)) == c && CungGpa(c, Total(DiemDat(r)), Total(DiemDat(s)))
  {
    CountsEachCourseOnce(r);
    CountsEachCourseOnce(s);
    var c, a, b := Total(TinChiDat(r)), TinhTichLuy(r), TinhTichLuy(s);
    if c > 0 && b.tongTinChi == c {
      TichLuyBang(b, a, LamTron(Total(DiemDat(s)) * 10, c), LamTron(Total(DiemDat(r)) * 10, c));
    }
  }

  // ---------------------------------------------------------------- properties of credits and GPA

  /** A course has one number of credits. */
  ghost predicate TinChiCoDinh(rows: seq<Dong>) {
    forall d, e :: d in rows && e in rows && d.maMonHoc == e.maMonHoc ==> d.soTinChi == e.soTinChi
  }

  ghost predicate CungTotNhat(a: Option<Dong>, b: Option<Dong>) {
    (a.None? && b.None?) || (a.Some? && b.Some? && a.value.z == b.value.z && a.value.soTinChi == b.value.soTinChi)
  }

  /** The tables, course by course. */
  lemma BangNghia(rows: seq<Dong>, m: nat)
    ensures var t := TotNhatCua(rows, m);
            && (m in ZDat(rows) <==> t.Some? && t.value.z >= DIEM_DAT)
            && TinChiDat(rows).Keys == DiemDat(rows).Keys == ZDat(rows).Keys
            && (m in ZDat(rows) ==> ZDat(rows)[m] == t.value.z && TinChiDat(rows)[m] == t.value.soTinChi &&
                                    DiemDat(rows)[m] == Thang4(t.value.z) * t.value.soTinChi)
  {
    TotNhatNghia(rows, m);
  }

  ghost predicate BangLon(a: map<nat, nat>, b: map<nat, nat>) {
    a.Keys == b.Keys && forall m: nat :: m in a ==> a[m] <= b[m]
  }

  lemma BangBang(a: map<nat, nat>, b: map<nat, nat>)
    requires BangLon(a, b) && BangLon(b, a)
    ensures a == b
  {
  }

  lemma MotMonTotHon(r: seq<Dong>, s: seq<Dong>, m: nat)
    requires TotHonCungTin(TotNhatCua(r, m), TotNhatCua(s, m))
    ensures m in ZDat(r) ==> m in ZDat(s) && TinChiDat(r)[m] == TinChiDat(s)[m] && DiemDat(r)[m] <= DiemDat(s)[m]
    ensures m in ZDat(s) ==> m in ZDat(r)
  {
    BangNghia(r, m);
    BangNghia(s, m);
    if m in ZDat(r) {
      var cu, moi := TotNhatCua(r, m).value, TotNhatCua(s, m).value;
      Thang4Tang(cu.z, moi.z);
      NhanTang(Thang4(cu.z), Thang4(moi.z), cu.soTinChi);
    }
  }

  /** A passing row is replaced by one at least as good, with the same credits; otherwise neither passes. */
  ghost predicate TotHonCungTin(a: Option<Dong>, b: Option<Dong>) {
    if a.Some? && a.value.z >= DIEM_DAT then b.Some? && a.value.z <= b.value.z && a.value.soTinChi == b.value.soTinChi
    else b.None? || b.value.z < DIEM_DAT
  }

  lemma TotHonMoiMon(r: seq<Dong>, s: seq<Dong>)
    requires forall m: nat :: TotHonCungTin(TotNhatCua(r, m), TotNhatCua(s, m))
    ensures TinChiDat(r) == TinChiDat(s) && BangLon(DiemDat(r), DiemDat(s))
  {
    var a, b, p, q := TinChiDat(r), TinChiDat(s), DiemDat(r), DiemDat(s);
    forall m: nat ensures m in a <==> m in b
      ensures m in p <==> m in q
      ensures m in a ==> a[m] == b[m] && p[m] <= q[m]
    {
      assert TotHonCungTin(TotNhatCua(r, m), TotNhatCua(s, m));
      BangNghia(r, m);
      BangNghia(s, m);
      MotMonTotHon(r, s, m);
    }
    assert a.Keys == b.Keys && p.Keys == q.Keys;
    BangBang(a, b);
  }

  lemma CungTotNhatCungTichLuy(r: seq<Dong>, s: seq<Dong>)
    requires forall m: nat :: CungTotNhat(TotNhatCua(r, m), TotNhatCua(s, m))
    ensures TinhTichLuy(r) == TinhTichLuy(s)
  {
    CountsEachCourseOnce(r);
    CountsEachCourseOnce(s);
    forall m: nat
      ensures TotHonCungTin(TotNhatCua(r, m), TotNhatCua(s, m)) && TotHonCungTin(TotNhatCua(s, m), TotNhatCua(r, m))
    {
      assert CungTotNhat(TotNhatCua(r, m), TotNhatCua(s, m));
    }
    TotHonMoiMon(r, s);
    TotHonMoiMon(s, r);
    BangBang(DiemDat(r), DiemDat(s));
  }

  lemma CungDongCungTotNhat(r: seq<Dong>, s: seq<Dong>, m: nat)
    requires (forall d :: d in r <==> d in s) && TinChiCoDinh(r)
    ensures CungTotNhat(TotNhatCua(r, m), TotNhatCua(s, m))
  {
    TotNhatNghia(r, m);
    TotNhatNghia(s, m);
  }

  /** The order in which rows are read, and repeated rows, make no difference. */
  lemma OrderIrrelevant(r: seq<Dong>, s: seq<Dong>)
    requires (forall d :: d in r <==> d in s) && TinChiCoDinh(r)
    ensures TinhTichLuy(r) == TinhTichLuy(s)
  {
    forall m: nat ensures CungTotNhat(TotNhatCua(r, m), TotNhatCua(s, m)) {
      CungDongCungTotNhat(r, s, m);
    }
    CungTotNhatCungTichLuy(r, s);
  }

  lemma {:induction false} TotalBounds(c: map<nat, nat>, p: map<nat, nat>, lo: nat, hi: nat)
    requires c.Keys == p.Keys && forall m: nat :: m in c ==> lo * c[m] <= p[m] <= hi * c[m]
    ensures lo * Total(c) <= Total(p) <= hi * Total(c)
  {
    var l := map m | m in c :: lo * c[m];
    var h := map m | m in c :: hi * c[m];
    TotalScaled(c, l, lo);
    TotalScaled(c, h, hi);
    TotalMonotone(l, p);
    TotalMonotone(p, h);
  }

  lemma DiemTrongKhoang(rows: seq<Dong>)
    ensures 10 * Total(TinChiDat(rows)) <= Total(DiemDat(rows)) <= 40 * Total(TinChiDat(rows))
  {
    var c, p := TinChiDat(rows), DiemDat(rows);
    assert c.Keys == p.Keys;
    forall m: nat | m in c ensures 10 * c[m] <= p[m] <= 40 * c[m] {
      var t := Thang4(ZDat(rows)[m]);
      assert 10 <= t <= 40;
      NhanTang(10, t, c[m]);
      NhanTang(t, 40, c[m]);
    }
    TotalBounds(c, p, 10, 40);
  }

  lemma NhanTang(x: nat, y: nat, c: nat)
    requires x <= y
    ensures x * c <= y * c
  {
  }

  lemma LamTronKhoang(a: nat, c: nat, lo: nat, hi: nat)
    requires c > 0 && lo * c <= a <= hi * c
    ensures lo <= LamTron(a, c) <= hi
  {
    LamTronDung(lo, c);
    LamTronDung(hi, c);
    NhanGiu(lo * c, a, c);
    NhanGiu(a, hi * c, c);
    LamTronTang(lo * c, c, a, c);
    LamTronTang(a, c, hi * c, c);
  }

  lemma LamTronDung(x: nat, c: nat)
    requires c > 0
    ensures LamTron(x * c, c) == x
  {
    var q, r := (x * c) / c, (x * c) % c;
    assert x * c == c * q + r && c * q == q * c;
    NhanGiu(q, x, c);
    NhanGiu(x, q, c);
    assert (q + 1) * c == q * c + c;
    NhanGiu(q + 1, x, c);
  }

  /** The GPA is 0, without credits, or between 1.00 and 4.00, and then it is within half a hundredth
      of the exact mean (points in tenths over credits). */
  lemma GpaRange(rows: seq<Dong>)
    ensures var r := TinhTichLuy(rows);
            if r.tongTinChi == 0 then r.gpa == 0
            else 100 <= r.gpa <= 400 &&
                 (var lech := 2 * (r.tongTinChi * r.gpa) - 2 * (Total(DiemDat(rows)) * 10);
                  lech <= r.tongTinChi && -lech <= r.tongTinChi)
  {
    CountsEachCourseOnce(rows);
    DiemTrongKhoang(rows);
    var c, p := Total(TinChiDat(rows)), Total(DiemDat(rows));
    if c > 0 {
      LamTronNghia(p * 10, c);
      LamTronKhoang(p * 10, c, 100, 400);
    }
  }

  lemma {:induction false} ThemDong(rows: seq<Dong>, d: Dong, m: nat)
    ensures var cu, moi := TotNhatCua(rows, m), TotNhatCua(rows + [d], m);
            if m != d.maMonHoc then moi == cu
            else moi.Some? && (if cu.Some? && cu.value.z >= d.z then moi == cu else moi == Some(d))
  {
    if rows == [] {
      assert rows + [d] == [d];
    } else {
      assert (rows + [d])[1..] == rows[1..] + [d];
      ThemDong(rows[1..], d, m);
    }
  }

  /** One more attempt never lowers the credits. */
  lemma AttemptKeepsCredits(rows: seq<Dong>, d: Dong)
    requires TinChiCoDinh(rows + [d])
    ensures TinhTichLuy(rows).tongTinChi <= TinhTichLuy(rows + [d]).tongTinChi
  {
    CountsEachCourseOnce(rows);
    CountsEachCourseOnce(rows + [d]);
    var c, e := TinChiDat(rows), TinChiDat(rows + [d]);
    forall m: nat | m in c ensures m in e && c[m] <= e[m] {
      ThemDong(rows, d, m);
      TotNhatNghia(rows, m);
      TotNhatNghia(rows + [d], m);
    }
    TotalMonotone(c, e);
  }

  lemma Thang4Tang(y: nat, z: nat)
    requires y <= z
    ensures Thang4(y) <= Thang4(z)
  {
  }

  lemma HocLaiMotMon(rows: seq<Dong>, d: Dong, m: nat)
    requires TinChiCoDinh(rows + [d])
    requires exists e :: e in rows && e.maMonHoc == d.maMonHoc && e.z >= DIEM_DAT
    ensures TotHonCungTin(TotNhatCua(rows, m), TotNhatCua(rows + [d], m))
  {
    ThemDong(rows, d, m);
    TotNhatNghia(rows, m);
    TotNhatNghia(rows + [d], m);
  }

  /** Retaking a passed course never lowers the GPA, and leaves the credits as they are. */
  lemma RetakeKeepsGpa(rows: seq<Dong>, d: Dong)
    requires TinChiCoDinh(rows + [d])
    requires exists e :: e in rows && e.maMonHoc == d.maMonHoc && e.z >= DIEM_DAT
    ensures TinhTichLuy(rows).tongTinChi == TinhTichLuy(rows + [d]).tongTinChi
    ensures TinhTichLuy(rows).gpa <= TinhTichLuy(rows + [d]).gpa
  {
    var moi := rows + [d];
    CountsEachCourseOnce(rows);
    CountsEachCourseOnce(moi);
    forall m: nat ensures TotHonCungTin(TotNhatCua(rows, m), TotNhatCua(moi, m)) {
      HocLaiMotMon(rows, d, m);
    }
    TotHonMoiMon(rows, moi);
    TotalMonotone(DiemDat(rows), DiemDat(moi));
    LamTronTrenCung(Total(DiemDat(rows)), Total(DiemDat(moi)), Total(TinChiDat(rows)));
  }

  lemma LamTronTrenCung(p: nat, q: nat, c: nat)
    requires p <= q
    ensures c > 0 ==> LamTron(p * 10, c) <= LamTron(q * 10, c)
  {
    NhanTang(p * 10, q * 10, c);
    if c > 0 { LamTronTang(p * 10, c, q * 10, c); }
  }
}
