/** From the tables and the student's request to the problem the solver gets, and from its results
    to the timetables that are suggested. */
module GoiYDanhSach {
  import opened Wrappers
  import opened Collections
  import opened Entities
  import opened XepLich
  import opened BienThe
  import opened TuChon
  import opened CoSoDuLieu
  import opened ChuongTrinh

  const SO_LUONG_GOI_Y := 5

  // ---------------------------------------------------------------- what the tables give

  /** The classes of one course in one term with a free seat, in key order. */
  function LopConCho(db: Db, hk: nat, mon: nat, ids: seq<nat>): (r: seq<LopHoc>)
    ensures forall l :: l in r ==> exists i :: i in ids && i in db.lops && db.lops[i] == l && l.maHocKy == hk &&
                                               l.maMonHoc == mon && SiSo(db, i) < l.siSoToiDa
  {
    if ids == [] then []
    else
      (if ids[0] in db.lops && db.lops[ids[0]].maHocKy == hk && db.lops[ids[0]].maMonHoc == mon &&
          SiSo(db, ids[0]) < db.lops[ids[0]].siSoToiDa
       then [db.lops[ids[0]]] else []) + LopConCho(db, hk, mon, ids[1..])
  }

  function MonConCho(db: Db, hk: nat): set<nat> {
    set l | l in db.lops && db.lops[l].maHocKy == hk && SiSo(db, l) < db.lops[l].siSoToiDa :: db.lops[l].maMonHoc
  }

  function LopTheoMonCua(db: Db, hk: nat): LopTheoMon {
    map m | m in MonConCho(db, hk) :: LopConCho(db, hk, m, SortedKeys(db.lops.Keys))
  }

  /** The courses in which the student is registered this term. */
  function MonDaDangKy(db: Db, sv: nat, hk: nat): set<nat> {
    set d | d in db.dangKys && db.dangKys[d].maSinhVien == sv && db.dangKys[d].maLopHocKy in db.lops &&
            db.lops[db.dangKys[d].maLopHocKy].maHocKy == hk :: db.lops[db.dangKys[d].maLopHocKy].maMonHoc
  }

  lemma DangKyMonTrongLop(db: Db, sv: nat, hk: nat, m: nat)
    ensures DangKyMon(db, sv, hk, m) != {} <==> m in MonDaDangKy(db, sv, hk)
    ensures forall d :: d in DangKyMon(db, sv, hk, m) ==> d in db.dangKys && db.dangKys[d].maLopHocKy in db.lops
  {
    if m in MonDaDangKy(db, sv, hk) {
      var d :| d in db.dangKys && db.dangKys[d].maSinhVien == sv && db.dangKys[d].maLopHocKy in db.lops &&
               db.lops[db.dangKys[d].maLopHocKy].maHocKy == hk && db.lops[db.dangKys[d].maLopHocKy].maMonHoc == m;
      assert d in DangKyMon(db, sv, hk, m);
    }
    if DangKyMon(db, sv, hk, m) != {} {
      var d: nat :| d in DangKyMon(db, sv, hk, m);
    }
  }

  /** The class the student has in a course this term. */
  function LopDaDangKy(db: Db, sv: nat, hk: nat, m: nat): LopHoc
    requires m in MonDaDangKy(db, sv, hk)
  {
    DangKyMonTrongLop(db, sv, hk, m);
    db.lops[db.dangKys[Least(DangKyMon(db, sv, hk, m))].maLopHocKy]
  }

  /** The classes already registered this term, kept fixed. */
  function CoDinh(db: Db, sv: nat, hk: nat): BangChon {
    map m | m in MonDaDangKy(db, sv, hk) :: LopDaDangKy(db, sv, hk, m)
  }

  // ---------------------------------------------------------------- what the request asks for

  predicate KhopMotTrong(c: YeuCau, tenMonHoc: string, ds: seq<string>) {
    exists t :: t in ds && c.khop(tenMonHoc, t)
  }

  /** Electives named in the text but missed by the reading of it are added to the wishes. */
  function LuoiAnToan(ct: seq<MonHocCt>, c: YeuCau, nhac: string -> bool): YeuCau {
    if ct == [] then c
    else
      var m := ct[0];
      LuoiAnToan(ct[1..],
        if m.loaiMonHoc == TU_CHON && !KhopMotTrong(c, m.tenMonHoc, c.monTuChonMuonHoc) &&
           !KhopMotTrong(c, m.tenMonHoc, c.monKhongMuonHoc) && nhac(m.tenMonHoc)
        then c.(monTuChonMuonHoc := c.monTuChonMuonHoc + [m.tenMonHoc]) else c,
        nhac)
  }

  predicate CanXepMacDinh(m: MonHocCt, c: YeuCau, kyDat: int) {
    m.loaiMonHoc == BAT_BUOC && m.coTheDangKy && (c.chiKyHienTai ==> m.kyHoc == kyDat)
  }

  /** The required courses to place. */
  function BatBuocCanXep(ct: seq<MonHocCt>, c: YeuCau, kyDat: int): seq<MonHocCt> {
    if ct == [] then []
    else (if CanXepMacDinh(ct[0], c, kyDat) then [ct[0]] else []) + BatBuocCanXep(ct[1..], c, kyDat)
  }

  function TimTheoTen(ct: seq<MonHocCt>, c: YeuCau, ten: string): Option<MonHocCt> {
    if ct == [] then None else if c.khop(ct[0].tenMonHoc, ten) then Some(ct[0]) else TimTheoTen(ct[1..], c, ten)
  }

  predicate CoMa(ms: seq<MonHocCt>, ma: nat) { exists m :: m in ms && m.maMonHoc == ma }

  /** Adds the courses named as wanted, if they have a free class and are not done with. */
  function ThemTheoTen(ms: seq<MonHocCt>, ct: seq<MonHocCt>, c: YeuCau, lops: LopTheoMon,
      tens: seq<string>): seq<MonHocCt>
    decreases |tens|
  {
    if tens == [] then ms
    else
      var t := TimTheoTen(ct, c, tens[0]);
      ThemTheoTen(
        if t.Some? && t.value.maMonHoc in lops && !CoMa(ms, t.value.maMonHoc) &&
           (t.value.trangThai != DaDat || t.value.caiThien)
        then ms + [t.value] else ms, ct, c, lops, tens[1..])
  }

  function BoMot(ms: seq<MonHocCt>, m: MonHocCt): seq<MonHocCt> {
    if ms == [] then [] else if ms[0] == m then ms[1..] else [ms[0]] + BoMot(ms[1..], m)
  }

  /** Removes the courses named as unwanted; the second part is what was removed. */
  function BoTheoTen(ms: seq<MonHocCt>, bo: seq<MonHocCt>, c: YeuCau, tens: seq<string>): (seq<MonHocCt>, seq<MonHocCt>)
    decreases |tens|
  {
    if tens == [] then (ms, bo)
    else
      var t := TimTheoTen(ms, c, tens[0]);
      if t.Some? then BoTheoTen(BoMot(ms, t.value), bo + [t.value], c, tens[1..])
      else BoTheoTen(ms, bo, c, tens[1..])
  }

  function BoMa(ms: seq<MonHocCt>, ma: set<nat>): seq<MonHocCt> {
    if ms == [] then [] else (if ms[0].maMonHoc in ma then [] else [ms[0]]) + BoMa(ms[1..], ma)
  }

  /** First come the courses for which the student named a lecturer or class, in that order. */
  function TangMot(ms: seq<MonHocCt>, dau: seq<MonHocCt>, c: YeuCau, us: seq<UuTien>): seq<MonHocCt>
    decreases |us|
  {
    if us == [] then dau
    else
      var t := TimTheoTenNgoai(ms, dau, c, us[0].tenMonHoc);
      TangMot(ms, if t.Some? then dau + [t.value] else dau, c, us[1..])
  }

  function TimTheoTenNgoai(ms: seq<MonHocCt>, dau: seq<MonHocCt>, c: YeuCau, ten: string): Option<MonHocCt> {
    if ms == [] then None
    else if ms[0] !in dau && c.khop(ms[0].tenMonHoc, ten) then Some(ms[0])
    else TimTheoTenNgoai(ms[1..], dau, c, ten)
  }

  /** Then the courses asked for by name. */
  function TangHai(ms: seq<MonHocCt>, dau: seq<MonHocCt>, c: YeuCau): seq<MonHocCt> {
    if ms == [] then []
    else
      (if ms[0] !in dau && KhopMotTrong(c, ms[0].tenMonHoc, c.monTuChonMuonHoc + c.monCanHocLai) then [ms[0]] else []) +
      TangHai(ms[1..], dau, c)
  }

  function Tru(ms: seq<MonHocCt>, bo: seq<MonHocCt>): seq<MonHocCt> {
    if ms == [] then [] else (if ms[0] in bo then [] else [ms[0]]) + Tru(ms[1..], bo)
  }

  function SoLop(m: MonHocCt, lops: LopTheoMon): nat { if m.maMonHoc in lops then |lops[m.maMonHoc]| else 0 }

  /** Each course with plus or minus its number of classes, the key it is sorted by. */
  function KemSoLop(ms: seq<MonHocCt>, lops: LopTheoMon, dau: int): (r: seq<(MonHocCt, int)>)
    ensures |r| == |ms| && forall i :: 0 <= i < |ms| ==> r[i] == (ms[i], dau * SoLop(ms[i], lops))
  {
    if ms == [] then [] else [(ms[0], dau * SoLop(ms[0], lops))] + KemSoLop(ms[1..], lops, dau)
  }

  function BoKhoa(s: seq<(MonHocCt, int)>): (r: seq<MonHocCt>)
    ensures |r| == |s| && forall i :: 0 <= i < |s| ==> r[i] == s[i].0
  {
    if s == [] then [] else [s[0].0] + BoKhoa(s[1..])
  }

  /** Then the rest, those with the fewest classes first. */
  function TangBa(ms: seq<MonHocCt>, mot: seq<MonHocCt>, hai: seq<MonHocCt>, lops: LopTheoMon): seq<MonHocCt> {
    BoKhoa(StableDescending(KemSoLop(Tru(Tru(ms, mot), hai), lops, -1)))
  }

  function ThuTuGiai(ms: seq<MonHocCt>, c: YeuCau, lops: LopTheoMon): seq<MonHocCt> {
    var mot := TangMot(ms, [], c, c.thuTuUuTien);
    var hai := TangHai(ms, mot, c);
    mot + hai + TangBa(ms, mot, hai, lops)
  }

  /** The courses to place, and those left out at the student's wish. */
  function CanXep(ct: seq<MonHocCt>, c: YeuCau, lops: LopTheoMon, daDangKy: set<nat>, kyDat: int)
    : (seq<MonHocCt>, seq<MonHocCt>)
  {
    var them := ThemTheoTen(BatBuocCanXep(ct, c, kyDat), ct, c, lops, c.monTuChonMuonHoc + c.monCanHocLai);
    var (con, bo) := BoTheoTen(them, [], c, c.monKhongMuonHoc);
    (BoMa(con, daDangKy), bo)
  }

  // ---------------------------------------------------------------- electives to fill with

  predicate LaUngVien(m: MonHocCt, c: YeuCau, daDangKy: set<nat>, chon: BangChon, bo: seq<MonHocCt>, kyDat: int) {
    m.loaiMonHoc == TU_CHON && m.coTheDangKy && m.maMonHoc !in daDangKy && m.maMonHoc !in chon &&
    !CoMa(bo, m.maMonHoc) && (c.chiKyHienTai ==> m.kyHoc == kyDat)
  }

  function LocUngVien(ct: seq<MonHocCt>, c: YeuCau, daDangKy: set<nat>, chon: BangChon, bo: seq<MonHocCt>,
      kyDat: int): seq<MonHocCt> {
    if ct == [] then []
    else (if LaUngVien(ct[0], c, daDangKy, chon, bo, kyDat) then [ct[0]] else []) +
         LocUngVien(ct[1..], c, daDangKy, chon, bo, kyDat)
  }

  /** The eligible electives, those with the most classes first. */
  function UngVienTuChon(ct: seq<MonHocCt>, c: YeuCau, lops: LopTheoMon, daDangKy: set<nat>, chon: BangChon,
                         bo: seq<MonHocCt>, kyDat: int): seq<MonHocCt> {
    BoKhoa(StableDescending(KemSoLop(LocUngVien(ct, c, daDangKy, chon, bo, kyDat), lops, 1)))
  }

  // ---------------------------------------------------------------- the suggestions

  /** One suggested timetable, the courses not placed, and the number of electives filled in. */
  datatype DeXuat = DeXuat(chon: BangChon, khongXepDuoc: seq<MonKhongXep>, soDaThem: nat)

  /** Everything the suggestion is computed from. */
  datatype DauVao = DauVao(ct: seq<MonHocCt>, yeuCau: YeuCau, lops: LopTheoMon, daDangKy: set<nat>,
    coDinh: BangChon, kyDat: int)

  function LapDauVao(dm: DanhMuc, db: Db, sv: nat, hk: nat, c: YeuCau, nhac: string -> bool): DauVao
    requires sv in dm.sinhViens && hk in dm.hocKys && KhungDung(dm, KhungCua(dm, dm.sinhViens[sv]))
  {
    var ct := BuildChuongTrinh(dm, db, sv, hk);
    DauVao(ct, LuoiAnToan(ct, c, nhac), LopTheoMonCua(db, hk), MonDaDangKy(db, sv, hk), CoDinh(db, sv, hk),
           KyTrang(dm, sv, hk))
  }

  function BaiCua(v: DauVao): Bai {
    Bai(ThuTuGiai(CanXep(v.ct, v.yeuCau, v.lops, v.daDangKy, v.kyDat).0, v.yeuCau, v.lops), v.lops, v.yeuCau)
  }

  function XayDungKetQua(v: DauVao, kq: KetQua): DeXuat {
    var bo := CanXep(v.ct, v.yeuCau, v.lops, v.daDangKy, v.kyDat).1;
    var (chon, them) := Dien(UngVienTuChon(v.ct, v.yeuCau, v.lops, v.daDangKy, kq.chon, bo, v.kyDat),
                             v.lops, v.yeuCau, v.yeuCau.soMonTuChonBatKy, kq.chon);
    DeXuat(chon, kq.khongXepDuoc, them)
  }

  function XayDungTatCa(v: DauVao, kqs: seq<KetQua>): (r: seq<DeXuat>)
    ensures |r| == |kqs| && forall i :: 0 <= i < |kqs| ==> r[i] == XayDungKetQua(v, kqs[i])
  {
    if kqs == [] then [] else [XayDungKetQua(v, kqs[0])] + XayDungTatCa(v, kqs[1..])
  }

  function GoiY(v: DauVao): seq<DeXuat> {
    XayDungTatCa(v, TimNhieu(BaiCua(v), v.coDinh, SO_LUONG_GOI_Y))
  }
}
