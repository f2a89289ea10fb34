/** The registration endpoints, updating the tables in place. */
module DangKyApi {
  import opened Wrappers
  import opened Collections
  import opened LichHoc
  import opened Entities
  import opened TichLuyDiem
  import opened CoSoDuLieu
  import opened DangKyHocPhan
  import opened AppDbContext

  class DangKyHocPhanController {
    const db: AppDb
    const dm: DanhMuc

    constructor (db: AppDb, dm: DanhMuc)
      ensures this.db == db && this.dm == dm
    {
      this.db, this.dm := db, dm;
    }

    /** The guards on the student's record: passed well enough, prerequisite, curriculum term. */
    method KiemTraDiem(sv: nat, maMonHoc: nat, hk: nat) returns (kc: KetCuc)
      requires sv in dm.sinhViens && maMonHoc in dm.monHocs && hk in dm.hocKys
      ensures kc == KiemTraMon(dm, db.Gia(), sv, maMonHoc, hk)
    {
      var t := db.Gia();
      var zHienTai := MaxZ(t, sv, maMonHoc);
      if zHienTai.Some? && zHienTai.value >= DIEM_HET_CAI_THIEN { return DaDatMon; }
      var mon := dm.monHocs[maMonHoc];
      if mon.tienQuyet.Some? {
        var zt := MaxZ(t, sv, mon.tienQuyet.value);
        var datTienQuyet := zt.Some? && zt.value >= DIEM_DAT;
        if !datTienQuyet { return ThieuTienQuyet; }
      }
      var (_, kyDat) := TinhKyDat(dm.hocKys[hk], false, dm.sinhViens[sv].namNhapHoc);
      var monKhung := TrongKhung(KhungCua(dm, dm.sinhViens[sv]), maMonHoc);
      if monKhung.Some? && mon.loaiMonHoc == BAT_BUOC && monKhung.value.kyHoc > kyDat && zHienTai.None? {
        return ChuaToiKy;
      }
      return ThanhCong;
    }

    /** Whether sessions overlap those of the classes the student has in a term. */
    method TrungLichDaDangKy(sv: nat, hk: nat, lich: seq<Buoi>, tru: Option<nat>) returns (trung: bool)
      ensures trung <==> TrungLichSinhVien(db.Gia(), sv, hk, lich, tru)
    {
      var t := db.Gia();
      var lichDaDangKy := LichDaDangKy(t, sv, hk, tru, SortedKeys(t.lops.Keys));
      trung := KiemTraTrungNhau(lich, lichDaDangKy);
      TrungLichQuaDanhSach(t, sv, hk, tru, lich);
    }

    method DangKy(sv: nat, maLopHocKy: nat, now: int) returns (kc: KetCuc)
      requires ToanVen(dm, db.Gia())
      modifies db
      ensures (db.Gia(), kc) == DangKyHocPhan.DangKy(dm, old(db.Gia()), sv, maLopHocKy, now)
    {
      var t := db.Gia();
      if sv !in dm.sinhViens { return KhongTimThay; }
      if maLopHocKy !in db.lops { return KhongTimThay; }
      var lop := db.lops[maLopHocKy];
      var hk := lop.maHocKy;
      if !DangMoDangKy(dm, dm.sinhViens[sv], hk, now) { return NgoaiDot; }

      var dangKyMonNay := DangKyMon(t, sv, hk, lop.maMonHoc);
      if dangKyMonNay != {} {
        var d := Least(dangKyMonNay);
        if db.dangKys[d].maLopHocKy == maLopHocKy { return DaDangKyLop; }
        return DaDangKyMon;
      }
      if SiSo(t, maLopHocKy) >= lop.siSoToiDa { return LopDay; }

      var diem := KiemTraDiem(sv, lop.maMonHoc, hk);
      if diem != ThanhCong { return diem; }

      var trung := TrungLichDaDangKy(sv, hk, lop.lichHocs, None);
      if trung { return TrungLich; }

      db.dangKys := db.dangKys[db.dangKyKe := DangKyLopHoc(sv, maLopHocKy)];
      db.dangKyKe := db.dangKyKe + 1;
      return ThanhCong;
    }

    method HuyDangKy(sv: nat, maDangKy: nat, now: int) returns (kc: KetCuc)
      requires ToanVen(dm, db.Gia())
      modifies db
      ensures (db.Gia(), kc) == DangKyHocPhan.HuyDangKy(dm, old(db.Gia()), sv, maDangKy, now)
    {
      if sv !in dm.sinhViens { return KhongTimThay; }
      if maDangKy !in db.dangKys { return KhongTimThay; }
      var dangKy := db.dangKys[maDangKy];
      if dangKy.maSinhVien != sv { return KhongDuocPhep; }
      var hk := db.lops[dangKy.maLopHocKy].maHocKy;
      var dangMoDk := DangMoDangKy(dm, dm.sinhViens[sv], hk, now);
      var dangMoRut := DangMoRut(dm, dm.sinhViens[sv], hk, now);
      if !dangMoDk && !dangMoRut { return NgoaiDot; }
      if maDangKy in db.diems { db.diems := db.diems - {maDangKy}; }
      assert db.diems == old(db.diems) - {maDangKy};
      db.dangKys := db.dangKys - {maDangKy};
      return ThanhCong;
    }

    method DoiLop(sv: nat, maDangKy: nat, maLopHocKyMoi: nat, now: int) returns (kc: KetCuc)
      requires ToanVen(dm, db.Gia())
      modifies db
      ensures (db.Gia(), kc) == DangKyHocPhan.DoiLop(dm, old(db.Gia()), sv, maDangKy, maLopHocKyMoi, now)
    {
      var t := db.Gia();
      if sv !in dm.sinhViens { return KhongTimThay; }
      if maDangKy !in db.dangKys { return KhongTimThay; }
      var dangKyCu := db.dangKys[maDangKy];
      if dangKyCu.maSinhVien != sv { return KhongDuocPhep; }
      if maLopHocKyMoi !in db.lops { return KhongTimThay; }
      var lopMoi := db.lops[maLopHocKyMoi];
      if lopMoi.maMonHoc != db.lops[dangKyCu.maLopHocKy].maMonHoc { return KhacMon; }
      if maLopHocKyMoi == dangKyCu.maLopHocKy { return DangHocLopNay; }
      var hk := db.lops[dangKyCu.maLopHocKy].maHocKy;
      if !DangMoDangKy(dm, dm.sinhViens[sv], hk, now) { return NgoaiDot; }
      if SiSo(t, maLopHocKyMoi) >= lopMoi.siSoToiDa { return LopDay; }

      var trung := TrungLichDaDangKy(sv, hk, lopMoi.lichHocs, Some(dangKyCu.maLopHocKy));
      if trung { return TrungLich; }

      // the unique index on (student, class) is checked when the changes are saved
      if CoDangKy(t, sv, maLopHocKyMoi) { return LoiCsdl; }
      if maDangKy in db.diems { db.diems := db.diems - {maDangKy}; }
      assert db.diems == old(db.diems) - {maDangKy};
      db.dangKys := db.dangKys - {maDangKy};
      db.dangKys := db.dangKys[db.dangKyKe := DangKyLopHoc(sv, maLopHocKyMoi)];
      db.dangKyKe := db.dangKyKe + 1;
      return ThanhCong;
    }
  }
}
