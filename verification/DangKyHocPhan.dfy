/** The registrar's three steps on the tables: register, cancel, move to another class. */
module DangKyHocPhan {
  import opened Wrappers
  import opened Collections
  import opened Entities
  import opened CoSoDuLieu
  import opened TichLuyDiem

  datatype LoiLich = KhongCoBuoi | ThuSai | TietSai | KetTruocBat | QuaBuoi | NgaySai | TuTrung

  /** What a request ends with: success or the refusing guard. LoiCsdl is a database constraint. */
  datatype KetCuc =
    | ThanhCong | KhongTimThay | KhongDuocPhep
    | NgoaiDot | DaDangKyLop | DaDangKyMon | LopDay | DaDatMon | ThieuTienQuyet | ChuaToiKy | TrungLich
    | KhacMon | DangHocLopNay | LoiCsdl
    | TenTrong | SaiLoaiHinh | SaiSiSo | MonKhongCo | KyKhongCo | LichSai(loi: LoiLich) | TrungPhong | TrungTen
    | GiangVienKhongCo | TrungGiangVien | DaCoSinhVien | DiemXSai | DiemYSai

  /** The guards that look only at the student's record of the course. */
  function KiemTraMon(dm: DanhMuc, db: Db, sv: nat, mon: nat, hk: nat): KetCuc
    requires sv in dm.sinhViens && mon in dm.monHocs && hk in dm.hocKys
  {
    var z := MaxZ(db, sv, mon);
    var tq := dm.monHocs[mon].tienQuyet;
    var kyDat := KyDangKy(dm, sv, hk);
    var khung := TrongKhung(KhungCua(dm, dm.sinhViens[sv]), mon);
    if z.Some? && z.value >= DIEM_HET_CAI_THIEN then DaDatMon
    else if tq.Some? && !(var zt := MaxZ(db, sv, tq.value); zt.Some? && zt.value >= DIEM_DAT) then ThieuTienQuyet
    else if khung.Some? && dm.monHocs[mon].loaiMonHoc == BAT_BUOC && khung.value.kyHoc > kyDat && z.None? then ChuaToiKy
    else ThanhCong
  }

  /** The guards of a registration, in the order in which they are tried. */
  function KiemTraDangKy(dm: DanhMuc, db: Db, sv: nat, ma: nat, now: int): KetCuc
    requires ToanVen(dm, db)
  {
    if sv !in dm.sinhViens || ma !in db.lops then KhongTimThay
    else
      var lop := db.lops[ma];
      if !DangMoDangKy(dm, dm.sinhViens[sv], lop.maHocKy, now) then NgoaiDot
      else
        var cu := DangKyMon(db, sv, lop.maHocKy, lop.maMonHoc);
        if cu != {} then (if db.dangKys[Least(cu)].maLopHocKy == ma then DaDangKyLop else DaDangKyMon)
        else if SiSo(db, ma) >= lop.siSoToiDa then LopDay
        else
          var mon := KiemTraMon(dm, db, sv, lop.maMonHoc, lop.maHocKy);
          if mon != ThanhCong then mon
          else if TrungLichSinhVien(db, sv, lop.maHocKy, lop.lichHocs, None) then TrungLich
          else ThanhCong
  }

  function ThemDangKy(db: Db, sv: nat, ma: nat): Db {
    db.(dangKys := db.dangKys[db.dangKyKe := DangKyLopHoc(sv, ma)], dangKyKe := db.dangKyKe + 1)
  }

  function BoDangKy(db: Db, d: nat): Db {
    db.(dangKys := db.dangKys - {d}, diems := db.diems - {d})
  }

  function DangKy(dm: DanhMuc, db: Db, sv: nat, ma: nat, now: int): (Db, KetCuc)
    requires ToanVen(dm, db)
  {
    var kc := KiemTraDangKy(dm, db, sv, ma, now);
    (if kc == ThanhCong then ThemDangKy(db, sv, ma) else db, kc)
  }

  function HuyDangKy(dm: DanhMuc, db: Db, sv: nat, d: nat, now: int): (Db, KetCuc)
    requires ToanVen(dm, db)
  {
    if sv !in dm.sinhViens || d !in db.dangKys then (db, KhongTimThay)
    else if db.dangKys[d].maSinhVien != sv then (db, KhongDuocPhep)
    else
      var hk := db.lops[db.dangKys[d].maLopHocKy].maHocKy;
      if !DangMoDangKy(dm, dm.sinhViens[sv], hk, now) && !DangMoRut(dm, dm.sinhViens[sv], hk, now) then (db, NgoaiDot)
      else (BoDangKy(db, d), ThanhCong)
  }

  /** Moves registration d to class `ma` of the same course. Only the course is compared, not the
      term; the round and the schedule are those of the old class's term. */
  function KiemTraDoiLop(dm: DanhMuc, db: Db, sv: nat, d: nat, ma: nat, now: int): KetCuc
    requires ToanVen(dm, db)
  {
    if sv !in dm.sinhViens || d !in db.dangKys then KhongTimThay
    else if db.dangKys[d].maSinhVien != sv then KhongDuocPhep
    else if ma !in db.lops then KhongTimThay
    else
      var cu, moi := db.lops[db.dangKys[d].maLopHocKy], db.lops[ma];
      if moi.maMonHoc != cu.maMonHoc then KhacMon
      else if ma == db.dangKys[d].maLopHocKy then DangHocLopNay
      else if !DangMoDangKy(dm, dm.sinhViens[sv], cu.maHocKy, now) then NgoaiDot
      else if SiSo(db, ma) >= moi.siSoToiDa then LopDay
      else if TrungLichSinhVien(db, sv, cu.maHocKy, moi.lichHocs, Some(db.dangKys[d].maLopHocKy)) then TrungLich
      else if CoDangKy(db, sv, ma) then LoiCsdl
      else ThanhCong
  }

  function DoiLop(dm: DanhMuc, db: Db, sv: nat, d: nat, ma: nat, now: int): (Db, KetCuc)
    requires ToanVen(dm, db)
  {
    var kc := KiemTraDoiLop(dm, db, sv, d, ma, now);
    (if kc == ThanhCong then ThemDangKy(BoDangKy(db, d), sv, ma) else db, kc)
  }

  // ---------------------------------------------------------------- integrity

  lemma ThemToanVen(dm: DanhMuc, db: Db, sv: nat, ma: nat)
    requires ToanVen(dm, db) && sv in dm.sinhViens && ma in db.lops && !CoDangKy(db, sv, ma)
    ensures ToanVen(dm, ThemDangKy(db, sv, ma))
  {
    var k := db.dangKyKe;
    assert k !in db.dangKys;
    forall d | d in db.dangKys ensures db.dangKys[d] != DangKyLopHoc(sv, ma) {
    }
  }

  lemma BoToanVen(dm: DanhMuc, db: Db, d: nat)
    requires ToanVen(dm, db)
    ensures ToanVen(dm, BoDangKy(db, d))
  {
  }

  lemma ChuaDangKy(db: Db, sv: nat, ma: nat)
    requires ma in db.lops && DangKyMon(db, sv, db.lops[ma].maHocKy, db.lops[ma].maMonHoc) == {}
    ensures !CoDangKy(db, sv, ma)
  {
    forall d | d in db.dangKys ensures db.dangKys[d] != DangKyLopHoc(sv, ma) {
      assert d !in DangKyMon(db, sv, db.lops[ma].maHocKy, db.lops[ma].maMonHoc);
    }
  }

  lemma DangKyToanVen(dm: DanhMuc, db: Db, sv: nat, ma: nat, now: int)
    requires ToanVen(dm, db)
    ensures ToanVen(dm, DangKy(dm, db, sv, ma, now).0)
  {
    if KiemTraDangKy(dm, db, sv, ma, now) == ThanhCong {
      ChuaDangKy(db, sv, ma);
      ThemToanVen(dm, db, sv, ma);
    }
  }

  lemma DoiLopToanVen(dm: DanhMuc, db: Db, sv: nat, d: nat, ma: nat, now: int)
    requires ToanVen(dm, db)
    ensures ToanVen(dm, DoiLop(dm, db, sv, d, ma, now).0)
  {
    if KiemTraDoiLop(dm, db, sv, d, ma, now) == ThanhCong {
      BoToanVen(dm, db, d);
      ThemToanVen(dm, BoDangKy(db, d), sv, ma);
    }
  }
}
