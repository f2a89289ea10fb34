/** Runs: any sequence of requests, each one atomic step on the tables. */
module HeThong {
  import opened Wrappers
  import opened CoSoDuLieu
  import opened DangKyHocPhan
  import opened LopHocTrongKy
  import opened NhapDiem

  datatype Lenh =
    | LDangKy(sv: nat, ma: nat, now: int)
    | LHuyDangKy(sv: nat, d: nat, now: int)
    | LDoiLop(sv: nat, d: nat, ma: nat, now: int)
    | LCreate(quyen: bool, mon: nat, hk: nat, yc: YeuCauLop)
    | LUpdate(quyen: bool, id: nat, yc: YeuCauLop)
    | LDelete(quyen: bool, id: nat)
    | LHuyLop(quyen: bool, id: nat)
    | LNhapDiem(quyen: bool, d: nat, x: Option<real>, y: Option<real>)

  ghost function Buoc(dm: DanhMuc, db: Db, lenh: Lenh): (Db, KetCuc)
    requires ToanVen(dm, db)
  {
    match lenh
    case LDangKy(sv, ma, now) => DangKy(dm, db, sv, ma, now)
    case LHuyDangKy(sv, d, now) => HuyDangKy(dm, db, sv, d, now)
    case LDoiLop(sv, d, ma, now) => DoiLop(dm, db, sv, d, ma, now)
    case LCreate(quyen, mon, hk, yc) => Create(dm, db, quyen, mon, hk, yc)
    case LUpdate(quyen, id, yc) => Update(dm, db, quyen, id, yc)
    case LDelete(quyen, id) => Delete(db, quyen, id)
    case LHuyLop(quyen, id) => HuyLop(db, quyen, id)
    case LNhapDiem(quyen, d, x, y) => NhapDiem.NhapDiem(dm, db, quyen, d, x, y)
  }

  /** Every step keeps keys and foreign keys. */
  lemma StepKeepsIntegrity(dm: DanhMuc, db: Db, lenh: Lenh)
    requires ToanVen(dm, db)
    ensures ToanVen(dm, Buoc(dm, db, lenh).0)
  {
    match lenh
    case LDangKy(sv, ma, now) => DangKyToanVen(dm, db, sv, ma, now);
    case LHuyDangKy(sv, d, now) => BoToanVen(dm, db, d);
    case LDoiLop(sv, d, ma, now) => DoiLopToanVen(dm, db, sv, d, ma, now);
    case LCreate(quyen, mon, hk, yc) => CreateToanVen(dm, db, quyen, mon, hk, yc);
    case LUpdate(quyen, id, yc) => UpdateToanVen(dm, db, quyen, id, yc);
    case LDelete(quyen, id) => DeleteToanVen(dm, db, quyen, id);
    case LHuyLop(quyen, id) => HuyLopToanVen(dm, db, quyen, id);
    case LNhapDiem(quyen, d, x, y) => NhapDiemToanVen(dm, db, quyen, d, x, y);
  }

  lemma LopTrongKhongCoDangKy(db: Db, id: nat)
    requires SiSo(db, id) == 0
    ensures forall d :: d in db.dangKys ==> db.dangKys[d].maLopHocKy != id
  {
    forall d | d in db.dangKys ensures db.dangKys[d].maLopHocKy != id {
      assert d !in DangKyCuaLop(db, id);
    }
  }

  lemma DatLopToanVen(dm: DanhMuc, db: Db, ma: nat, mon: nat, hk: nat, yc: YeuCauLop, ke: nat)
    requires ToanVen(dm, db) && mon in dm.monHocs && hk in dm.hocKys && db.lopKe <= ke && ma < ke
    requires yc.maGiangVien.Some? ==> yc.maGiangVien.value in dm.giangViens
    ensures ToanVen(dm, db.(lops := db.lops[ma := LopMoi(ma, mon, hk, yc)], lopKe := ke))
  {
  }

  lemma CreateToanVen(dm: DanhMuc, db: Db, quyen: bool, mon: nat, hk: nat, yc: YeuCauLop)
    requires ToanVen(dm, db)
    ensures ToanVen(dm, Create(dm, db, quyen, mon, hk, yc).0)
  {
    if Create(dm, db, quyen, mon, hk, yc).1 == ThanhCong { DatLopToanVen(dm, db, db.lopKe, mon, hk, yc, db.lopKe + 1); }
  }

  lemma UpdateToanVen(dm: DanhMuc, db: Db, quyen: bool, id: nat, yc: YeuCauLop)
    requires ToanVen(dm, db)
    ensures ToanVen(dm, Update(dm, db, quyen, id, yc).0)
  {
    if Update(dm, db, quyen, id, yc).1 == ThanhCong {
      DatLopToanVen(dm, db, id, db.lops[id].maMonHoc, db.lops[id].maHocKy, yc, db.lopKe);
    }
  }

  lemma HuyLopToanVen(dm: DanhMuc, db: Db, quyen: bool, id: nat)
    requires ToanVen(dm, db)
    ensures ToanVen(dm, HuyLop(db, quyen, id).0)
  {
  }

  lemma DeleteToanVen(dm: DanhMuc, db: Db, quyen: bool, id: nat)
    requires ToanVen(dm, db)
    ensures ToanVen(dm, Delete(db, quyen, id).0)
  {
    if Delete(db, quyen, id).1 == ThanhCong { LopTrongKhongCoDangKy(db, id); }
  }

  lemma NhapDiemToanVen(dm: DanhMuc, db: Db, quyen: bool, d: nat, x: Option<real>, y: Option<real>)
    requires ToanVen(dm, db)
    ensures ToanVen(dm, NhapDiem.NhapDiem(dm, db, quyen, d, x, y).0)
  {
    NhapDiemChiDoiDiem(dm, db, quyen, d, x, y);
    if NhapDiem.NhapDiem(dm, db, quyen, d, x, y).1 == ThanhCong { assert d in db.dangKys; }
  }

  ghost function Chay(dm: DanhMuc, db: Db, lenhs: seq<Lenh>): (r: Db)
    requires ToanVen(dm, db)
    ensures ToanVen(dm, r)
    decreases |lenhs|
  {
    if lenhs == [] then db
    else
      StepKeepsIntegrity(dm, db, lenhs[0]);
      Chay(dm, Buoc(dm, db, lenhs[0]).0, lenhs[1..])
  }

  // ---------------------------------------------------------------- rooms and lecturers, over every run

  /** The catalogue is about classes only. */
  lemma ChiNhinLop(dm: DanhMuc, db: Db, r: Db)
    requires DanhMucLopDung(dm, db) && r.lops == db.lops
    ensures DanhMucLopDung(dm, r)
  {
    forall l, m | l in r.lops && m in r.lops && l != m ensures HoaThuan(dm.upper, r.lops[l], r.lops[m]) {
    }
  }

  lemma DangKyGiuLop(dm: DanhMuc, db: Db, sv: nat, x: nat, y: nat, now: int)
    requires ToanVen(dm, db)
    ensures DangKy(dm, db, sv, x, now).0.lops == db.lops
    ensures HuyDangKy(dm, db, sv, x, now).0.lops == db.lops
    ensures DoiLop(dm, db, sv, x, y, now).0.lops == db.lops
  {
  }

  lemma StepKeepsCatalogue(dm: DanhMuc, db: Db, lenh: Lenh)
    requires ToanVen(dm, db) && DanhMucLopDung(dm, db)
    ensures DanhMucLopDung(dm, Buoc(dm, db, lenh).0)
  {
    match lenh
    case LDangKy(sv, ma, now) =>
      DangKyGiuLop(dm, db, sv, ma, ma, now);
      ChiNhinLop(dm, db, DangKy(dm, db, sv, ma, now).0);
    case LHuyDangKy(sv, d, now) =>
      DangKyGiuLop(dm, db, sv, d, d, now);
      ChiNhinLop(dm, db, HuyDangKy(dm, db, sv, d, now).0);
    case LDoiLop(sv, d, ma, now) =>
      DangKyGiuLop(dm, db, sv, d, ma, now);
      ChiNhinLop(dm, db, DoiLop(dm, db, sv, d, ma, now).0);
    case LCreate(quyen, mon, hk, yc) => CreateKeepsCatalogue(dm, db, quyen, mon, hk, yc);
    case LUpdate(quyen, id, yc) => UpdateKeepsCatalogue(dm, db, quyen, id, yc);
    case LDelete(quyen, id) => BoLopGiuDanhMuc(dm, db, quyen, id);
    case LHuyLop(quyen, id) => BoLopGiuDanhMuc(dm, db, quyen, id);
    case LNhapDiem(quyen, d, x, y) =>
      NhapDiemChiDoiDiem(dm, db, quyen, d, x, y);
      ChiNhinLop(dm, db, NhapDiem.NhapDiem(dm, db, quyen, d, x, y).0);
  }

  /** From a correct catalogue, the empty one for instance, every run of requests of any kind keeps
      rooms, lecturers, class names and each class's own schedule free of clashes. */
  lemma {:induction false} CatalogueSafe(dm: DanhMuc, db: Db, lenhs: seq<Lenh>)
    requires ToanVen(dm, db) && DanhMucLopDung(dm, db)
    ensures DanhMucLopDung(dm, Chay(dm, db, lenhs))
    decreases |lenhs|
  {
    if lenhs != [] {
      StepKeepsCatalogue(dm, db, lenhs[0]);
      StepKeepsIntegrity(dm, db, lenhs[0]);
      CatalogueSafe(dm, Buoc(dm, db, lenhs[0]).0, lenhs[1..]);
    }
  }
}
