/** The rows and records the timetable solver works on. */
module Entities {
  import opened Wrappers
  import opened LichHoc

  const BAT_BUOC := "Bắt buộc"
  const TU_CHON := "Tự chọn"

  /** A class of one course in one term, with its sessions and the ids of its lecturers. */
  datatype LopHoc = LopHoc(
    maLopHocKy: nat, maMonHoc: nat, maHocKy: nat, tenLop: string, loaiHinh: string,
    siSoToiDa: int, lichHocs: seq<Buoi>, giangViens: seq<nat>)

  datatype TrangThaiMon = DangHoc | DaDat | KhongDat | ChuaHoc

  /** One course of the student's curriculum, as the advice page shows it. Grades are hundredths. */
  datatype MonHocCt = MonHocCt(
    maMonHoc: nat, tenMonHoc: string, loaiMonHoc: string, soTinChi: nat, kyHoc: int,
    trangThai: TrangThaiMon, diemZ: Option<nat>, coLop: bool, caiThien: bool,
    daDangKyKyNay: bool, khongDuDieuKien: bool, chuaToiKy: bool, coTheDangKy: bool)

  datatype UuTien = UuTien(tenMonHoc: string, giangVien: string, tenLop: string)
  datatype TranhGiangVien = TranhGiangVien(tenMonHoc: string, giangVien: string)
  datatype BuoiTrongNgay = Sang | Chieu | KhongRo

  /** What was read from the student's request: an absent string is "". `khop` is the fuzzy name
      match, left arbitrary, and `hoTen` gives the lecturers' names. */
  datatype YeuCau = YeuCau(
    khop: (string, string) -> bool, hoTen: map<nat, string>,
    thuTuUuTien: seq<UuTien>, buoiUuTien: BuoiTrongNgay, tranhThu: seq<int>, tranhTiet: seq<int>,
    monTuChonMuonHoc: seq<string>, monCanHocLai: seq<string>, monKhongMuonHoc: seq<string>,
    chiKyHienTai: bool, giangVienKhongMuonHoc: seq<TranhGiangVien>, soMonTuChonBatKy: int)
}
