/** The class catalogue: create, update, delete and cancel a class. */
module LopHocTrongKy {
  import opened Wrappers
  import opened LichHoc
  import opened Text
  import opened Entities
  import opened CoSoDuLieu
  import opened DangKyHocPhan

  const LY_THUYET := "Lý thuyết"
  const THUC_HANH := "Thực hành"

  // ---------------------------------------------------------------- the sessions of one class

  function LoiBuoi(b: Buoi): Option<LoiLich> {
    if b.thu < 2 || b.thu > 8 then Some(ThuSai)
    else if b.tietBatDau < 1 || b.tietBatDau > 10 || b.tietKetThuc < 1 || b.tietKetThuc > 10 then Some(TietSai)
    else if b.tietKetThuc < b.tietBatDau then Some(KetTruocBat)
    else if !(b.tietBatDau <= 5 && b.tietKetThuc <= 5) && !(b.tietBatDau >= 6 && b.tietKetThuc >= 6) then Some(QuaBuoi)
    else if b.ngayKetThuc < b.ngayBatDau then Some(NgaySai)
    else None
  }

  /** The error of the first bad session. */
  function LoiCacBuoi(bs: seq<Buoi>): Option<LoiLich> {
    if bs == [] then None else if LoiBuoi(bs[0]).Some? then LoiBuoi(bs[0]) else LoiCacBuoi(bs[1..])
  }

  ghost predicate TuKhongTrung(bs: seq<Buoi>) {
    forall i, j :: 0 <= i < j < |bs| ==> !BuoiTrungNhau(bs[i], bs[j])
  }

  ghost function LoiLichHocs(bs: seq<Buoi>): Option<LoiLich> {
    if bs == [] then Some(KhongCoBuoi)
    else if LoiCacBuoi(bs).Some? then LoiCacBuoi(bs)
    else if !TuKhongTrung(bs) then Some(TuTrung)
    else None
  }

  /** A legal weekly schedule: at least one session, each within one morning or one afternoon on
      legal days, no two of them overlapping. */
  ghost predicate LichHopLe(bs: seq<Buoi>) {
    && bs != []
    && (forall b :: b in bs ==>
          2 <= b.thu <= 8 && b.ngayBatDau <= b.ngayKetThuc &&
          (1 <= b.tietBatDau <= b.tietKetThuc <= 5 || 6 <= b.tietBatDau <= b.tietKetThuc <= 10))
    && TuKhongTrung(bs)
  }

  lemma {:induction false} LoiCacBuoiNghia(bs: seq<Buoi>)
    ensures LoiCacBuoi(bs).None? <==> forall b :: b in bs ==> LoiBuoi(b).None?
  {
    if bs != [] {
      assert forall b :: b in bs <==> b == bs[0] || b in bs[1..];
      LoiCacBuoiNghia(bs[1..]);
    }
  }

  lemma ScheduleCheckExact(bs: seq<Buoi>)
    ensures LoiLichHocs(bs).None? <==> LichHopLe(bs)
  {
    LoiCacBuoiNghia(bs);
  }

  method ValidateLichHocs(bs: seq<Buoi>) returns (loi: Option<LoiLich>)
    ensures loi == LoiLichHocs(bs)
  {
    if |bs| == 0 { return Some(KhongCoBuoi); }
    for i := 0 to |bs|
      invariant LoiCacBuoi(bs) == LoiCacBuoi(bs[i..])
    {
      var l := bs[i];
      if l.thu < 2 || l.thu > 8 { return Some(ThuSai); }
      if l.tietBatDau < 1 || l.tietBatDau > 10 || l.tietKetThuc < 1 || l.tietKetThuc > 10 { return Some(TietSai); }
      if l.tietKetThuc < l.tietBatDau { return Some(KetTruocBat); }
      var cungBuoiSang := l.tietBatDau <= 5 && l.tietKetThuc <= 5;
      var cungBuoiChieu := l.tietBatDau >= 6 && l.tietKetThuc >= 6;
      if !cungBuoiSang && !cungBuoiChieu { return Some(QuaBuoi); }
      if l.ngayKetThuc < l.ngayBatDau { return Some(NgaySai); }
      assert bs[i..][1..] == bs[i + 1..];
    }
    for i := 0 to |bs|
      invariant forall p, q :: 0 <= p < i && p < q < |bs| ==> !BuoiTrungNhau(bs[p], bs[q])
    {
      for j := i + 1 to |bs|
        invariant forall q :: i < q < j ==> !BuoiTrungNhau(bs[i], bs[q])
      {
        if BuoiTrungNhau(bs[i], bs[j]) { return Some(TuTrung); }
      }
    }
    return None;
  }

  // ---------------------------------------------------------------- rooms and lecturers

  predicate CoPhong(b: Buoi) { b.phongHoc.Some? && !Blank(b.phongHoc.value) }

  function DoiHoa(upper: char -> char, s: string): string {
    if s == [] then [] else [upper(s[0])] + DoiHoa(upper, s[1..])
  }

  /** Same room, ignoring outer blanks and case, at overlapping times. */
  predicate TranhPhong(upper: char -> char, x: Buoi, y: Buoi) {
    && CoPhong(x) && CoPhong(y)
    && DoiHoa(upper, Trim(x.phongHoc.value)) == DoiHoa(upper, Trim(y.phongHoc.value))
    && BuoiTrungNhau(x, y)
  }

  predicate TranhPhongVoi(upper: char -> char, x: Buoi, b: seq<Buoi>) {
    exists y :: y in b && TranhPhong(upper, x, y)
  }

  predicate TranhPhongLich(upper: char -> char, a: seq<Buoi>, b: seq<Buoi>) {
    exists x :: x in a && TranhPhongVoi(upper, x, b)
  }

  predicate PhongBiTrung(dm: DanhMuc, db: Db, hk: nat, lich: seq<Buoi>, tru: Option<nat>) {
    exists l :: l in db.lops && db.lops[l].maHocKy == hk && Some(l) != tru &&
                TranhPhongLich(dm.upper, lich, db.lops[l].lichHocs)
  }

  predicate GiangVienBiTrung(db: Db, gv: nat, hk: nat, lich: seq<Buoi>, tru: Option<nat>) {
    exists l :: l in db.lops && db.lops[l].maHocKy == hk && Some(l) != tru && gv in db.lops[l].giangViens &&
                TrungNhau(lich, db.lops[l].lichHocs)
  }

  predicate TenBiTrung(db: Db, ten: string, mon: nat, hk: nat, tru: Option<nat>) {
    exists l :: l in db.lops && db.lops[l].tenLop == ten && db.lops[l].maMonHoc == mon &&
                db.lops[l].maHocKy == hk && Some(l) != tru
  }

  // ---------------------------------------------------------------- the steps

  datatype YeuCauLop = YeuCauLop(
    tenLop: string, loaiHinh: string, siSoToiDa: int, maGiangVien: Option<nat>, lichHocs: seq<Buoi>)

  /** The checks on the new schedule, name and lecturer, which creation and update share. */
  ghost function KiemTraXep(dm: DanhMuc, db: Db, mon: nat, hk: nat, yc: YeuCauLop, tru: Option<nat>): KetCuc {
    var loi := LoiLichHocs(yc.lichHocs);
    if loi.Some? then LichSai(loi.value)
    else if PhongBiTrung(dm, db, hk, yc.lichHocs, tru) then TrungPhong
    else if TenBiTrung(db, Trim(yc.tenLop), mon, hk, tru) then TrungTen
    else if yc.maGiangVien.None? then ThanhCong
    else if yc.maGiangVien.value !in dm.giangViens then GiangVienKhongCo
    else if GiangVienBiTrung(db, yc.maGiangVien.value, hk, yc.lichHocs, tru) then TrungGiangVien
    else ThanhCong
  }

  function KiemTraMau(yc: YeuCauLop): KetCuc {
    if Blank(Trim(yc.tenLop)) then TenTrong
    else if yc.loaiHinh !in {LY_THUYET, THUC_HANH} then SaiLoaiHinh
    else if yc.siSoToiDa <= 0 then SaiSiSo
    else ThanhCong
  }

  /** "L" is a class name. */
  lemma TenL()
    ensures Trim("L") == "L" && !Blank("L")
  {
    NgoaiKhoang('L', KHOANG_TRANG);
    assert "L"[0] == 'L';
    TrimmedKept("L");
  }

  /** Room names are stored trimmed. */
  function LuuBuoi(b: Buoi): Buoi {
    if b.phongHoc.Some? then b.(phongHoc := Some(Trim(b.phongHoc.value))) else b
  }

  function LuuLich(bs: seq<Buoi>): (r: seq<Buoi>)
    ensures |r| == |bs| && forall i :: 0 <= i < |bs| ==> r[i] == LuuBuoi(bs[i])
  {
    if bs == [] then [] else [LuuBuoi(bs[0])] + LuuLich(bs[1..])
  }

  function LopMoi(ma: nat, mon: nat, hk: nat, yc: YeuCauLop): LopHoc {
    LopHoc(ma, mon, hk, Trim(yc.tenLop), yc.loaiHinh, yc.siSoToiDa, LuuLich(yc.lichHocs),
           if yc.maGiangVien.Some? then [yc.maGiangVien.value] else [])
  }

  /** `quyen` says whether the caller may manage classes of the course. */
  ghost function Create(dm: DanhMuc, db: Db, quyen: bool, mon: nat, hk: nat, yc: YeuCauLop): (Db, KetCuc) {
    var mau := KiemTraMau(yc);
    if mau != ThanhCong then (db, mau)
    else if !quyen then (db, KhongDuocPhep)
    else if mon !in dm.monHocs then (db, MonKhongCo)
    else if hk !in dm.hocKys then (db, KyKhongCo)
    else
      var kc := KiemTraXep(dm, db, mon, hk, yc, None);
      if kc != ThanhCong then (db, kc)
      else (db.(lops := db.lops[db.lopKe := LopMoi(db.lopKe, mon, hk, yc)], lopKe := db.lopKe + 1), ThanhCong)
  }

  /** Replaces name, kind, capacity, sessions and lecturer. Enrolled students are not looked at. */
  ghost function Update(dm: DanhMuc, db: Db, quyen: bool, id: nat, yc: YeuCauLop): (Db, KetCuc) {
    if id !in db.lops then (db, KhongTimThay)
    else if !quyen then (db, KhongDuocPhep)
    else
      var cu := db.lops[id];
      var mau := KiemTraMau(yc);
      if mau != ThanhCong then (db, mau)
      else
        var kc := KiemTraXep(dm, db, cu.maMonHoc, cu.maHocKy, yc, Some(id));
        if kc != ThanhCong then (db, kc)
        else (db.(lops := db.lops[id := LopMoi(id, cu.maMonHoc, cu.maHocKy, yc)]), ThanhCong)
  }

  function Delete(db: Db, quyen: bool, id: nat): (Db, KetCuc) {
    if id !in db.lops then (db, KhongTimThay)
    else if !quyen then (db, KhongDuocPhep)
    else if SiSo(db, id) > 0 then (db, DaCoSinhVien)
    else (db.(lops := db.lops - {id}), ThanhCong)
  }

  /** Removes the class with all its registrations and their grades. */
  function HuyLop(db: Db, quyen: bool, id: nat): (Db, KetCuc) {
    if id !in db.lops then (db, KhongTimThay)
    else if !quyen then (db, KhongDuocPhep)
    else
      var bo := DangKyCuaLop(db, id);
      (db.(lops := db.lops - {id}, dangKys := db.dangKys - bo, diems := db.diems - bo), ThanhCong)
  }

  // ---------------------------------------------------------------- what the catalogue keeps

  /** Two classes of one term that may stand side by side. */
  ghost predicate HoaThuan(upper: char -> char, a: LopHoc, b: LopHoc) {
    a.maHocKy == b.maHocKy ==>
      && !TranhPhongLich(upper, a.lichHocs, b.lichHocs)
      && ((exists g :: g in a.giangViens && g in b.giangViens) ==> !TrungNhau(a.lichHocs, b.lichHocs))
      && !(a.tenLop == b.tenLop && a.maMonHoc == b.maMonHoc)
  }

  ghost predicate DanhMucLopDung(dm: DanhMuc, db: Db) {
    && (forall l :: l in db.lops ==> LichHopLe(db.lops[l].lichHocs) && db.lops[l].siSoToiDa > 0)
    && (forall l, m :: l in db.lops && m in db.lops && l != m ==> HoaThuan(dm.upper, db.lops[l], db.lops[m]))
  }

  lemma LuuBuoiGiuTrung(upper: char -> char, x: Buoi, y: Buoi)
    ensures BuoiTrungNhau(LuuBuoi(x), y) <==> BuoiTrungNhau(x, y)
    ensures TranhPhong(upper, LuuBuoi(x), y) <==> TranhPhong(upper, x, y)
    ensures TranhPhong(upper, x, y) <==> TranhPhong(upper, y, x)
  {
    if x.phongHoc.Some? { TrimNghia(x.phongHoc.value); TrimNghia(Trim(x.phongHoc.value)); }
  }

  lemma LuuLichGiu(upper: char -> char, a: seq<Buoi>, b: seq<Buoi>)
    ensures TrungNhau(LuuLich(a), b) <==> TrungNhau(a, b)
    ensures TranhPhongLich(upper, LuuLich(a), b) <==> TranhPhongLich(upper, a, b)
  {
    forall i | 0 <= i < |a|
      ensures TrungVoi(LuuLich(a)[i], b) <==> TrungVoi(a[i], b)
      ensures TranhPhongVoi(upper, LuuLich(a)[i], b) <==> TranhPhongVoi(upper, a[i], b)
    {
      forall y ensures BuoiTrungNhau(LuuBuoi(a[i]), y) <==> BuoiTrungNhau(a[i], y)
        ensures TranhPhong(upper, LuuBuoi(a[i]), y) <==> TranhPhong(upper, a[i], y)
      {
        LuuBuoiGiuTrung(upper, a[i], y);
      }
    }
  }

  lemma LuuLichHopLe(a: seq<Buoi>)
    requires LichHopLe(a)
    ensures LichHopLe(LuuLich(a))
  {
    var r := LuuLich(a);
    forall b | b in r
      ensures 2 <= b.thu <= 8 && b.ngayBatDau <= b.ngayKetThuc &&
              (1 <= b.tietBatDau <= b.tietKetThuc <= 5 || 6 <= b.tietBatDau <= b.tietKetThuc <= 10)
    {
      var i :| 0 <= i < |r| && r[i] == b;
      assert a[i] in a;
    }
    forall i, j | 0 <= i < j < |r| ensures !BuoiTrungNhau(r[i], r[j]) {
      assert !BuoiTrungNhau(a[i], a[j]);
    }
  }

  lemma TranhPhongDoiXung(upper: char -> char, a: seq<Buoi>, b: seq<Buoi>)
    requires TranhPhongLich(upper, a, b)
    ensures TranhPhongLich(upper, b, a)
  {
    var x :| x in a && TranhPhongVoi(upper, x, b);
    var y :| y in b && TranhPhong(upper, x, y);
    LuuBuoiGiuTrung(upper, x, y);
    assert TranhPhongVoi(upper, y, a);
  }

  lemma HoaThuanDoiXung(upper: char -> char, a: LopHoc, b: LopHoc)
    requires HoaThuan(upper, a, b)
    ensures HoaThuan(upper, b, a)
  {
    if TranhPhongLich(upper, b.lichHocs, a.lichHocs) { TranhPhongDoiXung(upper, b.lichHocs, a.lichHocs); }
    TrungNhauSymmetric(a.lichHocs, b.lichHocs);
  }

  /** A class that passed the checks fits beside every other class. */
  lemma LopMoiHoaThuan(dm: DanhMuc, db: Db, ma: nat, mon: nat, hk: nat, yc: YeuCauLop, tru: Option<nat>, m: nat)
    requires KiemTraXep(dm, db, mon, hk, yc, tru) == ThanhCong
    requires m in db.lops && Some(m) != tru
    ensures HoaThuan(dm.upper, LopMoi(ma, mon, hk, yc), db.lops[m])
  {
    LuuLichGiu(dm.upper, yc.lichHocs, db.lops[m].lichHocs);
    var moi := LopMoi(ma, mon, hk, yc);
    if hk == db.lops[m].maHocKy {
      assert !TranhPhongLich(dm.upper, yc.lichHocs, db.lops[m].lichHocs);
      assert !(db.lops[m].tenLop == moi.tenLop && db.lops[m].maMonHoc == mon);
      if exists g :: g in moi.giangViens && g in db.lops[m].giangViens {
        assert yc.maGiangVien.Some? && yc.maGiangVien.value in db.lops[m].giangViens;
        assert !TrungNhau(yc.lichHocs, db.lops[m].lichHocs);
      }
    }
  }

  lemma CreateKeepsCatalogue(dm: DanhMuc, db: Db, quyen: bool, mon: nat, hk: nat, yc: YeuCauLop)
    requires ToanVen(dm, db) && DanhMucLopDung(dm, db)
    ensures DanhMucLopDung(dm, Create(dm, db, quyen, mon, hk, yc).0)
  {
    var r := Create(dm, db, quyen, mon, hk, yc);
    if r.1 == ThanhCong {
      var k := db.lopKe;
      assert k !in db.lops;
      ScheduleCheckExact(yc.lichHocs);
      LuuLichHopLe(yc.lichHocs);
      forall m | m in db.lops
        ensures HoaThuan(dm.upper, r.0.lops[k], r.0.lops[m]) && HoaThuan(dm.upper, r.0.lops[m], r.0.lops[k])
      {
        LopMoiHoaThuan(dm, db, k, mon, hk, yc, None, m);
        HoaThuanDoiXung(dm.upper, r.0.lops[k], r.0.lops[m]);
      }
    }
  }

  lemma UpdateKeepsCatalogue(dm: DanhMuc, db: Db, quyen: bool, id: nat, yc: YeuCauLop)
    requires ToanVen(dm, db) && DanhMucLopDung(dm, db)
    ensures DanhMucLopDung(dm, Update(dm, db, quyen, id, yc).0)
  {
    var r := Update(dm, db, quyen, id, yc);
    if r.1 == ThanhCong {
      ScheduleCheckExact(yc.lichHocs);
      LuuLichHopLe(yc.lichHocs);
      forall m | m in db.lops && m != id
        ensures HoaThuan(dm.upper, r.0.lops[id], r.0.lops[m]) && HoaThuan(dm.upper, r.0.lops[m], r.0.lops[id])
      {
        LopMoiHoaThuan(dm, db, id, db.lops[id].maMonHoc, db.lops[id].maHocKy, yc, Some(id), m);
        HoaThuanDoiXung(dm.upper, r.0.lops[id], r.0.lops[m]);
      }
    }
  }

  lemma BoLopGiuDanhMuc(dm: DanhMuc, db: Db, quyen: bool, id: nat)
    requires DanhMucLopDung(dm, db)
    ensures DanhMucLopDung(dm, Delete(db, quyen, id).0) && DanhMucLopDung(dm, HuyLop(db, quyen, id).0)
  {
  }

  /** In a correct catalogue two distinct sessions of one term, of the same or of different classes,
      never use one room at overlapping times, and no lecturer teaches two overlapping classes. */
  lemma RoomsAndLecturersFree(dm: DanhMuc, db: Db, l: nat, i: nat, m: nat, j: nat)
    requires DanhMucLopDung(dm, db)
    requires l in db.lops && m in db.lops && db.lops[l].maHocKy == db.lops[m].maHocKy
    requires i < |db.lops[l].lichHocs| && j < |db.lops[m].lichHocs| && (l, i) != (m, j)
    ensures !TranhPhong(dm.upper, db.lops[l].lichHocs[i], db.lops[m].lichHocs[j])
    ensures (l == m || exists g :: g in db.lops[l].giangViens && g in db.lops[m].giangViens) ==>
              !BuoiTrungNhau(db.lops[l].lichHocs[i], db.lops[m].lichHocs[j])
  {
    var x, y := db.lops[l].lichHocs[i], db.lops[m].lichHocs[j];
    var lich := db.lops[m].lichHocs;
    if l == m {
      assert TuKhongTrung(db.lops[l].lichHocs);
      assert !BuoiTrungNhau(x, y);
    } else {
      assert HoaThuan(dm.upper, db.lops[l], db.lops[m]);
      assert x in db.lops[l].lichHocs && y in db.lops[m].lichHocs;
      assert TranhPhong(dm.upper, x, y) ==> TranhPhongVoi(dm.upper, x, lich);
      assert BuoiTrungNhau(x, y) ==> TrungVoi(x, lich);
    }
  }
}
