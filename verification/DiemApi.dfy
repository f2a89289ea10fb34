/** The grade endpoint, updating the tables in place. */
module DiemApi {
  import opened Wrappers
  import TichLuyDiem
  import opened CoSoDuLieu
  import opened DangKyHocPhan
  import opened AppDbContext
  import N = NhapDiem

  class DiemHocPhanController {
    const db: AppDb
    const dm: DanhMuc

    constructor (db: AppDb, dm: DanhMuc)
      ensures this.db == db && this.dm == dm
    {
      this.db, this.dm := db, dm;
    }

    method CapNhatTichLuy(sv: nat)
      modifies db
      ensures db.Gia() == N.TinhLai(dm, old(db.Gia()), sv)
    {
      var r := TichLuyDiem.CapNhatTichLuy(CacDong(dm, db.Gia(), sv));
      if sv in db.tichLuy {
        db.tichLuy := db.tichLuy[sv := r];
      }
    }

    method NhapDiem(quyen: bool, maDangKy: nat, x: Option<real>, y: Option<real>) returns (kc: KetCuc)
      modifies db
      ensures (db.Gia(), kc) == N.NhapDiem(dm, old(db.Gia()), quyen, maDangKy, x, y)
    {
      if maDangKy !in db.dangKys { return KhongTimThay; }
      if !quyen { return KhongDuocPhep; }
      if x.Some? && (x.value < 0.0 || x.value > 10.0) { return DiemXSai; }
      if y.Some? && (y.value < 0.0 || y.value > 10.0) { return DiemYSai; }
      var diem := if maDangKy in db.diems then db.diems[maDangKy] else DiemHocPhan(None, None, None);
      diem := diem.(diemX := x);
      diem := diem.(diemY := y);
      diem := diem.(diemZ := if x.Some? && y.Some? then Some(N.DiemZ(x.value, y.value)) else None);
      db.diems := db.diems[maDangKy := diem];
      CapNhatTichLuy(db.dangKys[maDangKy].maSinhVien);
      return ThanhCong;
    }
  }
}
