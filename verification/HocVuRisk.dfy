/** The training set of the risk model: for each student the terms in chronological order, credits
    and points accumulated from term to term. */
module HocVuRisk {
  import opened Collections
  import opened TichLuyDiem

  /** One graded attempt. */
  datatype LuotHoc = LuotHoc(
    maSinhVien: nat, maMonHoc: nat, soTinChi: nat, tuChon: bool, maHocKy: nat, ngayBatDauKy: int, diemZ: nat)

  /** One row of the training set; numbers are exact instead of floating point. */
  datatype RiskInput = RiskInput(
    soTinChi: nat, laTuChon: bool, lanHocThu: nat, gpaTruocKy: real, tyLeDat: real, tongTinChiKy: nat, truot: bool)

  // ---------------------------------------------------------------- groups

  function CuaSv(ls: seq<LuotHoc>, sv: nat): seq<LuotHoc> {
    if ls == [] then [] else (if ls[0].maSinhVien == sv then [ls[0]] else []) + CuaSv(ls[1..], sv)
  }

  function CuaKy(ls: seq<LuotHoc>, hk: nat): seq<LuotHoc> {
    if ls == [] then [] else (if ls[0].maHocKy == hk then [ls[0]] else []) + CuaKy(ls[1..], hk)
  }

  /** The students in the order in which they first appear. */
  function CacSv(ls: seq<LuotHoc>): seq<nat> {
    if ls == [] then []
    else
      var truoc := CacSv(ls[..|ls| - 1]);
      if ls[|ls| - 1].maSinhVien in truoc then truoc else truoc + [ls[|ls| - 1].maSinhVien]
  }

  /** The terms with minus their starting dates, each pair once. */
  function CapKy(ls: seq<LuotHoc>): seq<(nat, int)> {
    if ls == [] then []
    else
      var truoc := CapKy(ls[..|ls| - 1]);
      var k := (ls[|ls| - 1].maHocKy, -ls[|ls| - 1].ngayBatDauKy);
      if k in truoc then truoc else truoc + [k]
  }

  function MaKy(s: seq<(nat, int)>): seq<nat> { if s == [] then [] else [s[0].0] + MaKy(s[1..]) }

  /** The terms, earliest first. */
  function CacKy(ls: seq<LuotHoc>): seq<nat> { MaKy(StableDescending(CapKy(ls))) }

  function Dongs(ls: seq<LuotHoc>): seq<Dong> {
    if ls == [] then [] else [Dong(ls[0].maMonHoc, ls[0].soTinChi, ls[0].diemZ)] + Dongs(ls[1..])
  }

  function TinChiKy(ls: seq<LuotHoc>): nat { if ls == [] then 0 else ls[0].soTinChi + TinChiKy(ls[1..]) }

  /** How many of the first n attempts are of a course. */
  function SoLuot(ls: seq<LuotHoc>, n: nat, mon: nat): nat
    requires n <= |ls|
  {
    if n == 0 then 0 else SoLuot(ls, n - 1, mon) + (if ls[n - 1].maMonHoc == mon then 1 else 0)
  }

  function SoDat(ls: seq<LuotHoc>, n: nat, mon: nat): nat
    requires n <= |ls|
  {
    if n == 0 then 0
    else SoDat(ls, n - 1, mon) + (if ls[n - 1].maMonHoc == mon && ls[n - 1].diemZ >= DIEM_DAT then 1 else 0)
  }

  /** Pass rate of a course over everyone's attempts. */
  function TyLeDat(ls: seq<LuotHoc>, mon: nat): real {
    if SoLuot(ls, |ls|, mon) == 0 then 0.75 else SoDat(ls, |ls|, mon) as real / SoLuot(ls, |ls|, mon) as real
  }

  // ---------------------------------------------------------------- what the rows should be

  /** The courses passed in a term, best attempt each. */
  function DatKy(ls: seq<LuotHoc>, hk: nat): seq<Dong> {
    var rows := Dongs(CuaKy(ls, hk));
    DatCua(rows, CacMon(rows))
  }

  function TinChiDatKy(ls: seq<LuotHoc>, hk: nat): nat { TongTinChiDs(DatKy(ls, hk)) }
  function DiemDatKy(ls: seq<LuotHoc>, hk: nat): nat { TongDiemDs(DatKy(ls, hk)) }

  /** Credits accumulated over the first n terms. */
  function TinChiSau(ls: seq<LuotHoc>, kys: seq<nat>, n: nat): nat
    requires n <= |kys|
  {
    if n == 0 then 0 else TinChiSau(ls, kys, n - 1) + TinChiDatKy(ls, kys[n - 1])
  }

  /** Points, in tenths times credits, accumulated over the first n terms. */
  function DiemSau(ls: seq<LuotHoc>, kys: seq<nat>, n: nat): nat
    requires n <= |kys|
  {
    if n == 0 then 0 else DiemSau(ls, kys, n - 1) + DiemDatKy(ls, kys[n - 1])
  }

  function Gpa(diem: nat, tinChi: nat): real { if tinChi > 0 then (diem as real / 10.0) / tinChi as real else 0.0 }

  /** How many attempts of a course the student made in the first n terms. */
  function SoLuotTrong(ls: seq<LuotHoc>, kys: seq<nat>, n: nat, mon: nat): nat
    requires n <= |kys|
  {
    if n == 0 then 0
    else SoLuotTrong(ls, kys, n - 1, mon) + SoLuot(CuaKy(ls, kys[n - 1]), |CuaKy(ls, kys[n - 1])|, mon)
  }

  /** The row of attempt j of a term: gpa is the one before the term, `truoc` the attempts of the same
      course in earlier terms. */
  function HangCua(all: seq<LuotHoc>, ky: seq<LuotHoc>, gpa: real, truoc: nat, j: nat): RiskInput
    requires j < |ky|
  {
    RiskInput(ky[j].soTinChi, ky[j].tuChon, 1 + truoc + SoLuot(ky, j, ky[j].maMonHoc),
              gpa, TyLeDat(all, ky[j].maMonHoc), TinChiKy(ky), ky[j].diemZ < DIEM_DAT)
  }

  /** The rows of the first n attempts of term k. */
  function HangKy(all: seq<LuotHoc>, ls: seq<LuotHoc>, kys: seq<nat>, k: nat, gpa: real, n: nat): seq<RiskInput>
    requires k < |kys| && n <= |CuaKy(ls, kys[k])|
  {
    if n == 0 then []
    else
      var ky := CuaKy(ls, kys[k]);
      HangKy(all, ls, kys, k, gpa, n - 1) + [HangCua(all, ky, gpa, SoLuotTrong(ls, kys, k, ky[n - 1].maMonHoc), n - 1)]
  }

  /** The GPA before term i of a student. */
  function GpaTruoc(ls: seq<LuotHoc>, kys: seq<nat>, i: nat): real
    requires i <= |kys|
  {
    Gpa(DiemSau(ls, kys, i), TinChiSau(ls, kys, i))
  }

  /** The rows of term k, with the GPA before it. */
  function HangCaKy(all: seq<LuotHoc>, ls: seq<LuotHoc>, kys: seq<nat>, k: nat): seq<RiskInput>
    requires k < |kys|
  {
    HangKy(all, ls, kys, k, GpaTruoc(ls, kys, k), |CuaKy(ls, kys[k])|)
  }

  /** The rows of each of one student's terms. */
  function HangCacKy(all: seq<LuotHoc>, ls: seq<LuotHoc>, kys: seq<nat>): nat -> seq<RiskInput> {
    (k: nat) => if k < |kys| then HangCaKy(all, ls, kys, k) else []
  }

  /** The rows of one student's first n terms. */
  function HangSv(all: seq<LuotHoc>, ls: seq<LuotHoc>, kys: seq<nat>, n: nat): seq<RiskInput>
    requires n <= |kys|
  {
    Joined(HangCacKy(all, ls, kys), n)
  }

  /** What term k adds. */
  lemma HangSvBuoc(all: seq<LuotHoc>, ls: seq<LuotHoc>, kys: seq<nat>, k: nat)
    requires k < |kys|
    ensures HangSv(all, ls, kys, k + 1) == HangSv(all, ls, kys, k) + HangCaKy(all, ls, kys, k)
  {
    var f := HangCacKy(all, ls, kys);
    assert Joined(f, k + 1) == Joined(f, k) + f(k);
  }

  /** The rows of one student. */
  function HangCaSv(all: seq<LuotHoc>, sv: nat): seq<RiskInput> {
    var ls := CuaSv(all, sv);
    HangSv(all, ls, CacKy(ls), |CacKy(ls)|)
  }

  /** The rows of each student. */
  function HangCacSv(all: seq<LuotHoc>, svs: seq<nat>): nat -> seq<RiskInput> {
    (k: nat) => if k < |svs| then HangCaSv(all, svs[k]) else []
  }

  /** The rows of the first n students. */
  function TapHuanLuyen(all: seq<LuotHoc>, svs: seq<nat>, n: nat): seq<RiskInput>
    requires n <= |svs|
  {
    Joined(HangCacSv(all, svs), n)
  }

  lemma TapHuanLuyenBuoc(all: seq<LuotHoc>, svs: seq<nat>, k: nat)
    requires k < |svs|
    ensures TapHuanLuyen(all, svs, k + 1) == TapHuanLuyen(all, svs, k) + HangCaSv(all, svs[k])
  {
    var f := HangCacSv(all, svs);
    assert Joined(f, k + 1) == Joined(f, k) + f(k);
  }

  // ---------------------------------------------------------------- the incremental computation

  function Dem(soLan: map<nat, nat>, m: nat): nat { if m in soLan then soLan[m] else 0 }

  /** The dictionary holds the attempts of every course in the first k terms and the first j of term k. */
  ghost predicate DemDung(ls: seq<LuotHoc>, kys: seq<nat>, k: nat, ky: seq<LuotHoc>, j: nat, soLan: map<nat, nat>)
    requires k <= |kys| && j <= |ky|
  {
    forall m: nat :: SoLuotTrong(ls, kys, k, m) + SoLuot(ky, j, m) == Dem(soLan, m)
  }

  lemma DemThem(ls: seq<LuotHoc>, kys: seq<nat>, k: nat, ky: seq<LuotHoc>, j: nat, soLan: map<nat, nat>)
    requires k <= |kys| && j < |ky| && DemDung(ls, kys, k, ky, j, soLan)
    ensures DemDung(ls, kys, k, ky, j + 1, soLan[ky[j].maMonHoc := Dem(soLan, ky[j].maMonHoc) + 1])
  {
    var moi := soLan[ky[j].maMonHoc := Dem(soLan, ky[j].maMonHoc) + 1];
    forall m: nat ensures SoLuotTrong(ls, kys, k, m) + SoLuot(ky, j + 1, m) == Dem(moi, m) {
      assert SoLuotTrong(ls, kys, k, m) + SoLuot(ky, j, m) == Dem(soLan, m);
    }
  }

  lemma DemHetKy(ls: seq<LuotHoc>, kys: seq<nat>, k: nat, soLan: map<nat, nat>)
    requires k < |kys| && DemDung(ls, kys, k, CuaKy(ls, kys[k]), |CuaKy(ls, kys[k])|, soLan)
    ensures DemDung(ls, kys, k + 1, [], 0, soLan)
  {
    var ky := CuaKy(ls, kys[k]);
    forall m: nat ensures SoLuotTrong(ls, kys, k + 1, m) + SoLuot([], 0, m) == Dem(soLan, m) {
      assert SoLuotTrong(ls, kys, k, m) + SoLuot(ky, |ky|, m) == Dem(soLan, m);
    }
  }

  /** One student, with running credits, points and attempt counts. */
  method DongCuaSinhVien(all: seq<LuotHoc>, ls: seq<LuotHoc>) returns (ketQua: seq<RiskInput>)
    ensures ketQua == HangSv(all, ls, CacKy(ls), |CacKy(ls)|)
  {
    ketQua := [];
    var cacKy := CacKy(ls);
    var tinChiTichLuy: nat, diemTichLuy: nat := 0, 0;
    var soLanHocMon: map<nat, nat> := map[];
    for k := 0 to |cacKy|
      invariant ketQua == HangSv(all, ls, cacKy, k)
      invariant tinChiTichLuy == TinChiSau(ls, cacKy, k) && diemTichLuy == DiemSau(ls, cacKy, k)
      invariant DemDung(ls, cacKy, k, [], 0, soLanHocMon)
    {
      var gpaTruocKyNay := Gpa(diemTichLuy, tinChiTichLuy);
      var hangKy;
      hangKy, soLanHocMon := DongCuaKy(all, ls, cacKy, k, gpaTruocKyNay, soLanHocMon);
      HangSvBuoc(all, ls, cacKy, k);
      ketQua := ketQua + hangKy;
      var tinChi, diem := CongDat(DatKy(ls, cacKy[k]));
      tinChiTichLuy := tinChiTichLuy + tinChi;
      diemTichLuy := diemTichLuy + diem;
    }
  }

  /** The attempts of one term. */
  method DongCuaKy(all: seq<LuotHoc>, ls: seq<LuotHoc>, kys: seq<nat>, k: nat, gpaTruocKyNay: real,
                   soLan: map<nat, nat>)
    returns (ketQua: seq<RiskInput>, soLanHocMon: map<nat, nat>)
    requires k < |kys| && DemDung(ls, kys, k, [], 0, soLan)
    ensures ketQua == HangKy(all, ls, kys, k, gpaTruocKyNay, |CuaKy(ls, kys[k])|)
    ensures DemDung(ls, kys, k + 1, [], 0, soLanHocMon)
  {
    var cacMonKyNay := CuaKy(ls, kys[k]);
    var tongTinChiKy := TinChiKy(cacMonKyNay);
    soLanHocMon := soLan;
    ketQua := [];
    DemDau(ls, kys, k, cacMonKyNay, soLan);
    for j := 0 to |cacMonKyNay|
      invariant ketQua == HangKy(all, ls, kys, k, gpaTruocKyNay, j)
      invariant DemDung(ls, kys, k, cacMonKyNay, j, soLanHocMon)
    {
      var luot := cacMonKyNay[j];
      var m := luot.maMonHoc;
      assert SoLuotTrong(ls, kys, k, m) + SoLuot(cacMonKyNay, j, m) == Dem(soLanHocMon, m);
      var soLanTruoc := Dem(soLanHocMon, m);
      ketQua := ketQua + [RiskInput(luot.soTinChi, luot.tuChon, soLanTruoc + 1, gpaTruocKyNay,
                                    TyLeDat(all, m), tongTinChiKy, luot.diemZ < DIEM_DAT)];
      DemThem(ls, kys, k, cacMonKyNay, j, soLanHocMon);
      soLanHocMon := soLanHocMon[m := soLanTruoc + 1];
    }
    DemHetKy(ls, kys, k, soLanHocMon);
  }

  lemma DemDau(ls: seq<LuotHoc>, kys: seq<nat>, k: nat, ky: seq<LuotHoc>, soLan: map<nat, nat>)
    requires k <= |kys| && DemDung(ls, kys, k, [], 0, soLan)
    ensures DemDung(ls, kys, k, ky, 0, soLan)
  {
    forall m: nat ensures SoLuotTrong(ls, kys, k, m) + SoLuot(ky, 0, m) == Dem(soLan, m) {
      assert SoLuotTrong(ls, kys, k, m) + SoLuot([], 0, m) == Dem(soLan, m);
    }
  }

  method CongDat(dat: seq<Dong>) returns (tinChi: nat, diem: nat)
    ensures tinChi == TongTinChiDs(dat) && diem == TongDiemDs(dat)
  {
    tinChi, diem := 0, 0;
    for i := 0 to |dat|
      invariant tinChi + TongTinChiDs(dat[i..]) == TongTinChiDs(dat)
      invariant diem == TongDiemDs(dat[..i])
    {
      assert dat[i..][1..] == dat[i + 1..];
      assert dat[..i + 1][..i] == dat[..i];
      var (_, thang4) := TinhDiemChuVaThang4(dat[i].z);
      tinChi := tinChi + dat[i].soTinChi;
      diem := diem + thang4 * dat[i].soTinChi;
    }
    assert dat[..|dat|] == dat;
  }
}
