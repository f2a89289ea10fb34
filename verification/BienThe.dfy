/** Several timetables for one problem: solve once, then again with classes already used banned. */
module BienThe {
  import opened Entities
  import opened XepLich
  import opened XepLichAnToan
  import opened KyHieu

  type LoaiTru = map<nat, set<nat>>

  function LocLop(ds: seq<LopHoc>, bo: set<nat>): (r: seq<LopHoc>)
    ensures forall l :: l in r <==> l in ds && l.maLopHocKy !in bo
  {
    if ds == [] then [] else (if ds[0].maLopHocKy in bo then [] else [ds[0]]) + LocLop(ds[1..], bo)
  }

  /** The problem without the banned classes. */
  function HanChe(b: Bai, loaiTru: LoaiTru): Bai {
    b.(lopTheoMon := map k | k in b.lopTheoMon ::
      if k in loaiTru then LocLop(b.lopTheoMon[k], loaiTru[k]) else b.lopTheoMon[k])
  }

  /** One run with a reset counter. */
  function ChayLai(b: Bai, coDinh: BangChon, loaiTru: LoaiTru): KetQua {
    Tim(HanChe(b, loaiTru), 0, coDinh, 0).kq
  }

  predicate DaCo(ds: seq<KetQua>, kq: KetQua) {
    exists r :: r in ds && KyHieuToHop(r.chon) == KyHieuToHop(kq.chon)
  }

  function ThuVaThem(b: Bai, coDinh: BangChon, toiDa: int, ds: seq<KetQua>, loaiTru: LoaiTru): seq<KetQua> {
    if |ds| >= toiDa then ds
    else
      var kq := ChayLai(b, coDinh, loaiTru);
      if DaCo(ds, kq) then ds else ds + [kq]
  }

  /** The classes of a course used by the timetables found so far. */
  function DaDung(ds: seq<KetQua>, ma: nat): set<nat> {
    set r | r in ds && ma in r.chon :: r.chon[ma].maLopHocKy
  }

  function CacBienThe(b: Bai, coDinh: BangChon, toiDa: int, mons: seq<MonHocCt>, ds: seq<KetQua>): seq<KetQua>
    decreases |mons|
  {
    if mons == [] || |ds| >= toiDa then ds
    else
      var daDung := DaDung(ds, mons[0].maMonHoc);
      CacBienThe(b, coDinh, toiDa, mons[1..],
                 if daDung == {} then ds else ThuVaThem(b, coDinh, toiDa, ds, map[mons[0].maMonHoc := daDung]))
  }

  function NhieuLuaChon(b: Bai, mons: seq<MonHocCt>): seq<MonHocCt> {
    if mons == [] then []
    else
      (if mons[0].maMonHoc in b.lopTheoMon && |b.lopTheoMon[mons[0].maMonHoc]| > 1 then [mons[0]] else []) +
      NhieuLuaChon(b, mons[1..])
  }

  function TimNhieu(b: Bai, coDinh: BangChon, toiDa: int): seq<KetQua> {
    CacBienThe(b, coDinh, toiDa, NhieuLuaChon(b, b.thuTu), ThuVaThem(b, coDinh, toiDa, [], map[]))
  }

  /** One round for a course: the run with its used classes banned gives a new timetable. */
  lemma VongMoi(b: Bai, coDinh: BangChon, toiDa: int, mons: seq<MonHocCt>, ds: seq<KetQua>, daDung: set<nat>,
      kq: KetQua, tiep: seq<KetQua>)
    requires mons != [] && |ds| < toiDa && DaDung(ds, mons[0].maMonHoc) == daDung != {}
    requires ChayLai(b, coDinh, map[mons[0].maMonHoc := daDung]) == kq && !DaCo(ds, kq) && tiep == ds + [kq]
    ensures CacBienThe(b, coDinh, toiDa, mons, ds) == CacBienThe(b, coDinh, toiDa, mons[1..], tiep)
  {
  }

  // ---------------------------------------------------------------- properties

  ghost predicate KhacNhau(ds: seq<KetQua>) {
    forall p, q :: 0 <= p < q < |ds| ==> LopCuaMon(ds[p].chon) != LopCuaMon(ds[q].chon)
  }

  ghost predicate BienTheDung(b: Bai, coDinh: BangChon, ds: seq<KetQua>) {
    && KhacNhau(ds)
    && forall p :: 0 <= p < |ds| ==> AnToan(b, 0, coDinh, ds[p].chon) &&
                                     Ten(ds[p].khongXepDuoc) == TenThieu(b, 0, ds[p].chon)
  }

  lemma {:induction false} TenThieuHanChe(b: Bai, h: Bai, i: nat, chon: BangChon)
    requires b.thuTu == h.thuTu && i <= |b.thuTu|
    ensures TenThieu(b, i, chon) == TenThieu(h, i, chon)
    decreases |b.thuTu| - i
  {
    if i < |b.thuTu| { TenThieuHanChe(b, h, i + 1, chon); }
  }

  lemma ChayLaiDung(b: Bai, coDinh: BangChon, loaiTru: LoaiTru)
    requires Rieng(b, 0, coDinh)
    ensures var kq := ChayLai(b, coDinh, loaiTru);
            AnToan(b, 0, coDinh, kq.chon) && Ten(kq.khongXepDuoc) == TenThieu(b, 0, kq.chon)
  {
    var h := HanChe(b, loaiTru);
    var chon := ChayLai(b, coDinh, loaiTru).chon;
    assert Rieng(h, 0, coDinh);
    TimDung(h, 0, coDinh, 0);
    TenThieuHanChe(b, h, 0, chon);
    assert MaTu(b, 0) == MaTu(h, 0);
    forall j | 0 <= j < |b.thuTu| && b.Ma(j) in chon ensures LopDung(b, j, chon) {
      assert LopDung(h, j, chon);
      assert chon[b.Ma(j)] in h.UngVien(j);
    }
  }

  lemma ThemKhac(ds: seq<KetQua>, kq: KetQua)
    requires KhacNhau(ds) && !DaCo(ds, kq)
    ensures KhacNhau(ds + [kq])
  {
    forall p | 0 <= p < |ds| ensures LopCuaMon(ds[p].chon) != LopCuaMon(kq.chon) {
      SignatureInjective(ds[p].chon, kq.chon);
      assert ds[p] in ds;
    }
  }

  lemma ThuVaThemDung(b: Bai, coDinh: BangChon, toiDa: int, ds: seq<KetQua>, loaiTru: LoaiTru)
    requires Rieng(b, 0, coDinh) && BienTheDung(b, coDinh, ds)
    ensures BienTheDung(b, coDinh, ThuVaThem(b, coDinh, toiDa, ds, loaiTru))
  {
    var kq := ChayLai(b, coDinh, loaiTru);
    ChayLaiDung(b, coDinh, loaiTru);
    if !DaCo(ds, kq) { ThemKhac(ds, kq); }
  }

  lemma {:induction false} CacBienTheDung(b: Bai, coDinh: BangChon, toiDa: int, mons: seq<MonHocCt>, ds: seq<KetQua>)
    requires Rieng(b, 0, coDinh) && BienTheDung(b, coDinh, ds)
    ensures BienTheDung(b, coDinh, CacBienThe(b, coDinh, toiDa, mons, ds))
    ensures ds <= CacBienThe(b, coDinh, toiDa, mons, ds)
    ensures |ds| <= toiDa ==> |CacBienThe(b, coDinh, toiDa, mons, ds)| <= toiDa
    decreases |mons|
  {
    if mons != [] && |ds| < toiDa {
      var daDung := DaDung(ds, mons[0].maMonHoc);
      var loaiTru := map[mons[0].maMonHoc := daDung];
      ThuVaThemDung(b, coDinh, toiDa, ds, loaiTru);
      CacBienTheDung(b, coDinh, toiDa, mons[1..],
                     if daDung == {} then ds else ThuVaThem(b, coDinh, toiDa, ds, loaiTru));
    }
  }

  lemma HanCheRong(b: Bai)
    ensures HanChe(b, map[]) == b
  {
    assert HanChe(b, map[]).lopTheoMon == b.lopTheoMon;
  }

  /** Asked for k timetables, the service returns between one and k, the first being the
      unrestricted solution; they pairwise differ in some course's class, each contains the fixed
      classes, uses offered classes without new clashes, and lists its missing courses. */
  lemma VariantsSound(b: Bai, coDinh: BangChon, toiDa: int)
    requires Rieng(b, 0, coDinh)
    ensures var ds := TimNhieu(b, coDinh, toiDa);
            && BienTheDung(b, coDinh, ds)
            && (if toiDa >= 1 then 1 <= |ds| <= toiDa && ds[0] == Tim(b, 0, coDinh, 0).kq else ds == [])
  {
    HanCheRong(b);
    ThuVaThemDung(b, coDinh, toiDa, [], map[]);
    var dau := ThuVaThem(b, coDinh, toiDa, [], map[]);
    CacBienTheDung(b, coDinh, toiDa, NhieuLuaChon(b, b.thuTu), dau);
    if toiDa >= 1 {
      assert dau == [Tim(b, 0, coDinh, 0).kq];
      assert TimNhieu(b, coDinh, toiDa)[0] == dau[0];
    }
  }

  /** A run made for course ma places that course, if at all, in a class no earlier timetable used. */
  lemma VariantIsNew(b: Bai, coDinh: BangChon, ds: seq<KetQua>, i: nat)
    requires Rieng(b, 0, coDinh) && i < |b.thuTu|
    ensures var ma := b.Ma(i);
            var chon := ChayLai(b, coDinh, map[ma := DaDung(ds, ma)]).chon;
            ma in chon ==> forall r :: r in ds && ma in r.chon ==> chon[ma].maLopHocKy != r.chon[ma].maLopHocKy
  {
    var ma := b.Ma(i);
    var h := HanChe(b, map[ma := DaDung(ds, ma)]);
    var chon := ChayLai(b, coDinh, map[ma := DaDung(ds, ma)]).chon;
    assert Rieng(h, 0, coDinh);
    TimDung(h, 0, coDinh, 0);
    if ma in chon {
      assert LopDung(h, i, chon);
      assert chon[ma] in h.UngVien(i);
    }
  }

  // ---------------------------------------------------------------- when fewer than asked for come back

  ghost predicate CoLich(ds: seq<KetQua>, kq: KetQua) {
    exists r :: r in ds && LopCuaMon(r.chon) == LopCuaMon(kq.chon)
  }

  lemma DaCoNghia(ds: seq<KetQua>, kq: KetQua)
    ensures DaCo(ds, kq) <==> CoLich(ds, kq)
  {
    forall r: KetQua ensures KyHieuToHop(r.chon) == KyHieuToHop(kq.chon) <==> LopCuaMon(r.chon) == LopCuaMon(kq.chon) {
      SignatureInjective(r.chon, kq.chon);
    }
  }

  /** Course ma was tried after the first p timetables: none of them places it, or the run without the classes
      they give it only leads to a timetable in the list. */
  ghost predicate DaThu(b: Bai, coDinh: BangChon, ds: seq<KetQua>, p: nat, ma: nat) {
    && p <= |ds|
    && (DaDung(ds[..p], ma) == {} || CoLich(ds, ChayLai(b, coDinh, map[ma := DaDung(ds[..p], ma)])))
  }

  lemma ThuVaThemCo(b: Bai, coDinh: BangChon, toiDa: int, ds: seq<KetQua>, loaiTru: LoaiTru, het: seq<KetQua>)
    requires |ds| < toiDa && ThuVaThem(b, coDinh, toiDa, ds, loaiTru) <= het
    ensures ds <= het && CoLich(het, ChayLai(b, coDinh, loaiTru))
  {
    var kq, tiep := ChayLai(b, coDinh, loaiTru), ThuVaThem(b, coDinh, toiDa, ds, loaiTru);
    DaCoNghia(ds, kq);
    if DaCo(ds, kq) {
      var r :| r in ds && LopCuaMon(r.chon) == LopCuaMon(kq.chon);
      assert r in het;
    } else {
      assert tiep[|ds|] == kq && het[|ds|] == kq;
      assert kq in het;
    }
  }

  lemma {:induction false} CacBienTheNoi(b: Bai, coDinh: BangChon, toiDa: int, mons: seq<MonHocCt>, ds: seq<KetQua>)
    ensures ds <= CacBienThe(b, coDinh, toiDa, mons, ds)
    decreases |mons|
  {
    if mons != [] && |ds| < toiDa {
      var daDung := DaDung(ds, mons[0].maMonHoc);
      CacBienTheNoi(b, coDinh, toiDa, mons[1..],
                    if daDung == {} then ds else ThuVaThem(b, coDinh, toiDa, ds, map[mons[0].maMonHoc := daDung]));
    }
  }

  lemma {:induction false} CacBienTheHet(b: Bai, coDinh: BangChon, toiDa: int, mons: seq<MonHocCt>, ds: seq<KetQua>,
                                         x: MonHocCt) returns (p: nat)
    requires x in mons && |CacBienThe(b, coDinh, toiDa, mons, ds)| < toiDa
    ensures |ds| <= p && DaThu(b, coDinh, CacBienThe(b, coDinh, toiDa, mons, ds), p, x.maMonHoc)
    decreases |mons|
  {
    var het := CacBienThe(b, coDinh, toiDa, mons, ds);
    CacBienTheNoi(b, coDinh, toiDa, mons, ds);
    var ma := mons[0].maMonHoc;
    var daDung := DaDung(ds, ma);
    var tiep := if daDung == {} then ds else ThuVaThem(b, coDinh, toiDa, ds, map[ma := daDung]);
    CacBienTheNoi(b, coDinh, toiDa, mons[1..], tiep);
    if x == mons[0] {
      p := |ds|;
      assert het[..p] == ds;
      if daDung != {} { ThuVaThemCo(b, coDinh, toiDa, ds, map[ma := daDung], het); }
    } else {
      p := CacBienTheHet(b, coDinh, toiDa, mons[1..], tiep, x);
    }
  }

  lemma {:induction false} NhieuLuaChonCo(b: Bai, mons: seq<MonHocCt>, x: MonHocCt)
    requires x in mons && x.maMonHoc in b.lopTheoMon && |b.lopTheoMon[x.maMonHoc]| > 1
    ensures x in NhieuLuaChon(b, mons)
  {
    if x != mons[0] { NhieuLuaChonCo(b, mons[1..], x); }
  }

  /** If fewer timetables come back than were asked for, every course with more than one class on offer was tried:
      after some of the timetables found, none places it, or running again without the classes they give it
      only leads to a timetable in the list. */
  lemma VariantsExhaustive(b: Bai, coDinh: BangChon, toiDa: int, x: MonHocCt) returns (p: nat)
    requires |TimNhieu(b, coDinh, toiDa)| < toiDa
    requires x in b.thuTu && x.maMonHoc in b.lopTheoMon && |b.lopTheoMon[x.maMonHoc]| > 1
    ensures 1 <= p && DaThu(b, coDinh, TimNhieu(b, coDinh, toiDa), p, x.maMonHoc)
  {
    NhieuLuaChonCo(b, b.thuTu, x);
    p := CacBienTheHet(b, coDinh, toiDa, NhieuLuaChon(b, b.thuTu), ThuVaThem(b, coDinh, toiDa, [], map[]), x);
  }
}
