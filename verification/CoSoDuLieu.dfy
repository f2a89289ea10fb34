/** The tables the controllers share. Reference data that no modelled step changes is in DanhMuc;
    the rows that steps insert, update and delete are in Db. */
module CoSoDuLieu {
  import opened Math
  import opened Wrappers
  import opened Collections
  import opened LichHoc
  import opened Entities
  import opened TichLuyDiem

  datatype MonHoc = MonHoc(tenMonHoc: string, loaiMonHoc: string, soTinChi: nat, tienQuyet: Option<nat>)

  /** A term: the year in which its academic year starts, and the year and day on which it starts itself. */
  datatype HocKy = HocKy(tenHocKy: string, loaiHocKy: string, namHoc: int, namKy: int, ngayBatDau: int)
  datatype SinhVien = SinhVien(maNganhHoc: nat, namNhapHoc: int, maKhoaVien: nat)
  datatype DotDangKy = DotDangKy(
    maHocKy: nat, batDau: int, ketThuc: int, choPhepDangKy: bool, choPhepRut: bool,
    namNhapHoc: Option<int>, maKhoaVien: Option<nat>)
  datatype KhungMon = KhungMon(maMonHoc: nat, kyHoc: int)

  /** `khung` lists each major's curriculum in display order; `upper` is the case mapping of
      case-insensitive comparison, left arbitrary. */
  datatype DanhMuc = DanhMuc(
    monHocs: map<nat, MonHoc>, hocKys: map<nat, HocKy>, sinhViens: map<nat, SinhVien>,
    dots: seq<DotDangKy>, khung: map<nat, seq<KhungMon>>, giangViens: set<nat>, upper: char -> char)

  datatype DangKyLopHoc = DangKyLopHoc(maSinhVien: nat, maLopHocKy: nat)
  datatype DiemHocPhan = DiemHocPhan(diemX: Option<real>, diemY: Option<real>, diemZ: Option<nat>)

  /** lopKe and dangKyKe are the next generated keys. */
  datatype Db = Db(
    lops: map<nat, LopHoc>, dangKys: map<nat, DangKyLopHoc>, diems: map<nat, DiemHocPhan>,
    tichLuy: map<nat, TichLuy>, lopKe: nat, dangKyKe: nat)

  ghost predicate GiangVienCo(dm: DanhMuc, gvs: seq<nat>) { forall g :: g in gvs ==> g in dm.giangViens }

  /** Keys, foreign keys and the unique index on (student, class). */
  ghost predicate ToanVen(dm: DanhMuc, db: Db) {
    && (forall l :: l in db.lops ==>
          l < db.lopKe && db.lops[l].maLopHocKy == l &&
          db.lops[l].maMonHoc in dm.monHocs && db.lops[l].maHocKy in dm.hocKys &&
          GiangVienCo(dm, db.lops[l].giangViens))
    && (forall d :: d in db.dangKys ==>
          d < db.dangKyKe && db.dangKys[d].maSinhVien in dm.sinhViens && db.dangKys[d].maLopHocKy in db.lops)
    && (forall d, e :: d in db.dangKys && e in db.dangKys && db.dangKys[d] == db.dangKys[e] ==> d == e)
    && db.diems.Keys <= db.dangKys.Keys
    && db.tichLuy.Keys == dm.sinhViens.Keys
  }

  // ---------------------------------------------------------------- queries

  function DangKyCuaLop(db: Db, ma: nat): set<nat> {
    set d | d in db.dangKys && db.dangKys[d].maLopHocKy == ma
  }

  function SiSo(db: Db, ma: nat): nat { |DangKyCuaLop(db, ma)| }

  predicate CoDangKy(db: Db, sv: nat, ma: nat) {
    exists d :: d in db.dangKys && db.dangKys[d] == DangKyLopHoc(sv, ma)
  }

  /** The registrations of a student in one course and term. */
  function DangKyMon(db: Db, sv: nat, hk: nat, mon: nat): set<nat> {
    set d | d in db.dangKys && db.dangKys[d].maSinhVien == sv && db.dangKys[d].maLopHocKy in db.lops &&
            db.lops[db.dangKys[d].maLopHocKy].maHocKy == hk && db.lops[db.dangKys[d].maLopHocKy].maMonHoc == mon
  }

  /** The student is registered, in this term, in a class other than `tru` with an overlapping session. */
  predicate TrungLichSinhVien(db: Db, sv: nat, hk: nat, lich: seq<Buoi>, tru: Option<nat>) {
    exists l :: l in db.lops && db.lops[l].maHocKy == hk && Some(l) != tru && CoDangKy(db, sv, l) &&
                TrungNhau(lich, db.lops[l].lichHocs)
  }

  predicate DaCham(db: Db, d: nat) {
    d in db.dangKys && db.dangKys[d].maLopHocKy in db.lops && d in db.diems && db.diems[d].diemZ.Some?
  }

  function MonCua(db: Db, d: nat): nat
    requires d in db.dangKys && db.dangKys[d].maLopHocKy in db.lops
  {
    db.lops[db.dangKys[d].maLopHocKy].maMonHoc
  }

  /** The student's recorded grades in a course. */
  function CacZ(db: Db, sv: nat, mon: nat): set<nat> {
    set d | d in db.dangKys && DaCham(db, d) && db.dangKys[d].maSinhVien == sv && MonCua(db, d) == mon ::
      db.diems[d].diemZ.value
  }

  predicate LaMax(zs: set<nat>, z: nat) { z in zs && forall y: nat :: y in zs ==> y <= z }

  lemma {:induction false} MaxTonTai(zs: set<nat>)
    requires zs != {}
    ensures exists z: nat :: LaMax(zs, z)
  {
    var a: nat :| a in zs;
    var t := zs - {a};
    assert forall y: nat :: y in zs ==> y == a || y in t;
    if t == {} {
      assert LaMax(zs, a);
    } else {
      MaxTonTai(t);
      var b: nat :| LaMax(t, b);
      assert LaMax(zs, if b <= a then a else b);
    }
  }

  function MaxCua(zs: set<nat>): (r: Option<nat>)
    ensures r.None? <==> zs == {}
    ensures r.Some? ==> LaMax(zs, r.value)
  {
    if zs == {} then None
    else
      MaxTonTai(zs);
      var z: nat :| LaMax(zs, z);
      Some(z)
  }

  /** The best recorded grade, if there is one. */
  function MaxZ(db: Db, sv: nat, mon: nat): Option<nat> { MaxCua(CacZ(db, sv, mon)) }

  // ---------------------------------------------------------------- graded rows

  function DongCua(dm: DanhMuc, db: Db, d: nat): Dong
    requires DaCham(db, d)
  {
    var mon := MonCua(db, d);
    Dong(mon, if mon in dm.monHocs then dm.monHocs[mon].soTinChi else 0, db.diems[d].diemZ.value)
  }

  function DongTu(dm: DanhMuc, db: Db, sv: nat, ids: seq<nat>): seq<Dong> {
    if ids == [] then []
    else
      (if DaCham(db, ids[0]) && db.dangKys[ids[0]].maSinhVien == sv then [DongCua(dm, db, ids[0])] else []) +
      DongTu(dm, db, sv, ids[1..])
  }

  /** The student's graded registrations. */
  function CacDong(dm: DanhMuc, db: Db, sv: nat): seq<Dong> {
    DongTu(dm, db, sv, SortedKeys(db.dangKys.Keys))
  }

  ghost predicate CoDong(dm: DanhMuc, db: Db, sv: nat, r: Dong) {
    exists d :: DaCham(db, d) && db.dangKys[d].maSinhVien == sv && DongCua(dm, db, d) == r
  }

  lemma {:induction false} DongTuNghia(dm: DanhMuc, db: Db, sv: nat, ids: seq<nat>, r: Dong)
    ensures r in DongTu(dm, db, sv, ids) <==>
            exists d :: d in ids && DaCham(db, d) && db.dangKys[d].maSinhVien == sv && DongCua(dm, db, d) == r
  {
    if ids != [] {
      DongTuNghia(dm, db, sv, ids[1..], r);
      var x := ids[0];
      assert forall d :: d in ids <==> d == x || d in ids[1..];
    }
  }

  lemma CacDongNghia(dm: DanhMuc, db: Db, sv: nat, r: Dong)
    ensures r in CacDong(dm, db, sv) <==> CoDong(dm, db, sv, r)
  {
    var ids := SortedKeys(db.dangKys.Keys);
    DongTuNghia(dm, db, sv, ids, r);
    if CoDong(dm, db, sv, r) {
      var d :| DaCham(db, d) && db.dangKys[d].maSinhVien == sv && DongCua(dm, db, d) == r;
      assert d in ids;
    }
  }

  lemma CacDongCoDinh(dm: DanhMuc, db: Db, sv: nat)
    ensures TinChiCoDinh(CacDong(dm, db, sv))
  {
    forall r, s | r in CacDong(dm, db, sv) && s in CacDong(dm, db, sv) && r.maMonHoc == s.maMonHoc
      ensures r.soTinChi == s.soTinChi
    {
      CacDongNghia(dm, db, sv, r);
      CacDongNghia(dm, db, sv, s);
    }
  }

  // ---------------------------------------------------------------- registration rounds and terms

  predicate DotApDungCho(d: DotDangKy, sv: SinhVien) {
    if d.namNhapHoc.Some? then d.namNhapHoc.value == sv.namNhapHoc
    else if d.maKhoaVien.Some? then d.maKhoaVien.value == sv.maKhoaVien
    else true
  }

  predicate DotDangDienRa(d: DotDangKy, sv: SinhVien, hk: nat, now: int) {
    DotApDungCho(d, sv) && d.maHocKy == hk && d.batDau <= now <= d.ketThuc
  }

  predicate DangMoDangKy(dm: DanhMuc, sv: SinhVien, hk: nat, now: int) {
    exists d :: d in dm.dots && DotDangDienRa(d, sv, hk, now) && d.choPhepDangKy
  }

  predicate DangMoRut(dm: DanhMuc, sv: SinhVien, hk: nat, now: int) {
    exists d :: d in dm.dots && DotDangDienRa(d, sv, hk, now) && d.choPhepRut
  }

  /** Year and curriculum term the student has reached in a term. A term loaded without its academic year
      counts from the year in which it starts itself. */
  function TinhKyDat(hk: HocKy, coNamHoc: bool, namNhapHoc: int): (int, int) {
    var namThu := Max(1, (if coNamHoc then hk.namHoc else hk.namKy) - namNhapHoc + 1);
    (namThu, if hk.loaiHocKy == "Phụ" then namThu * 2
             else (namThu - 1) * 2 + (if '2' in hk.tenHocKy then 2 else 1))
  }

  /** The curriculum term the advice page works with: it loads the term with its academic year. */
  function KyTrang(dm: DanhMuc, sv: nat, hk: nat): int
    requires sv in dm.sinhViens && hk in dm.hocKys
  {
    TinhKyDat(dm.hocKys[hk], true, dm.sinhViens[sv].namNhapHoc).1
  }

  /** The curriculum term registration works with: it loads the term alone. */
  function KyDangKy(dm: DanhMuc, sv: nat, hk: nat): int
    requires sv in dm.sinhViens && hk in dm.hocKys
  {
    TinhKyDat(dm.hocKys[hk], false, dm.sinhViens[sv].namNhapHoc).1
  }

  /** The two differ by two for every year between the start of the academic year and that of the term,
      counted from the year the student entered. */
  lemma KyTheoNam(dm: DanhMuc, sv: nat, hk: nat)
    requires sv in dm.sinhViens && hk in dm.hocKys
    ensures var ky, vao := dm.hocKys[hk], dm.sinhViens[sv].namNhapHoc;
            && KyDangKy(dm, sv, hk) - KyTrang(dm, sv, hk) == 2 * (Max(vao, ky.namKy) - Max(vao, ky.namHoc))
            && (KyTrang(dm, sv, hk) <= KyDangKy(dm, sv, hk) <==> ky.namHoc <= Max(vao, ky.namKy))
  {
  }

  /** How the term reached is counted. In the year of entry and before it a first semester is term 1, a second
      semester and a supplementary term are term 2; every later year adds two. */
  lemma TermReached(hk: HocKy, coNamHoc: bool, vao: int)
    ensures var nam := if coNamHoc then hk.namHoc else hk.namKy;
            var ky := TinhKyDat(hk, coNamHoc, vao).1;
            if nam <= vao then
              ky == if hk.loaiHocKy == "Phụ" || '2' in hk.tenHocKy then 2 else 1
            else
              ky == 2 + TinhKyDat(hk.(namHoc := hk.namHoc - 1, namKy := hk.namKy - 1), coNamHoc, vao).1
  {
  }

  /** The curriculum entry of a course, the first if several. */
  function TrongKhung(ds: seq<KhungMon>, mon: nat): Option<KhungMon> {
    if ds == [] then None else if ds[0].maMonHoc == mon then Some(ds[0]) else TrongKhung(ds[1..], mon)
  }

  function KhungCua(dm: DanhMuc, sv: SinhVien): seq<KhungMon> {
    if sv.maNganhHoc in dm.khung then dm.khung[sv.maNganhHoc] else []
  }
}
