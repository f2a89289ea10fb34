/** What the class catalogue stores: which requests it accepts, the row that each leaves, and what
    deleting and cancelling a class remove. */
module LopHocNghia {
  import opened Wrappers
  import opened LichHoc
  import opened Text
  import opened Entities
  import opened CoSoDuLieu
  import opened DangKyHocPhan
  import opened LopHocTrongKy

  // ---------------------------------------------------------------- the stored row

  /** The session is stored as requested, its room name trimmed. */
  ghost predicate LaBuoi(b: Buoi, yc: Buoi) {
    && b.thu == yc.thu && b.tietBatDau == yc.tietBatDau && b.tietKetThuc == yc.tietKetThuc
    && b.ngayBatDau == yc.ngayBatDau && b.ngayKetThuc == yc.ngayKetThuc
    && (yc.phongHoc.None? <==> b.phongHoc.None?)
    && (yc.phongHoc.Some? ==> b.phongHoc == Some(Trim(yc.phongHoc.value)))
  }

  /** The row holds what was requested: kind and capacity, the trimmed name, exactly the requested lecturer,
      and the requested sessions in order. */
  ghost predicate LaYeuCau(l: LopHoc, yc: YeuCauLop) {
    && l.tenLop == Trim(yc.tenLop) && l.loaiHinh == yc.loaiHinh && l.siSoToiDa == yc.siSoToiDa
    && |l.giangViens| <= 1 && (forall g: nat :: g in l.giangViens <==> yc.maGiangVien == Some(g))
    && |l.lichHocs| == |yc.lichHocs| && forall i :: 0 <= i < |l.lichHocs| ==> LaBuoi(l.lichHocs[i], yc.lichHocs[i])
  }

  lemma LopMoiDung(ma: nat, mon: nat, hk: nat, yc: YeuCauLop)
    ensures LaYeuCau(LopMoi(ma, mon, hk, yc), yc)
  {
  }

  /** The classes other than k are as before, and so are all other tables. */
  ghost predicate ChiDoiLop(db: Db, r: Db, k: nat) {
    && (forall l :: l != k ==> (l in r.lops <==> l in db.lops) && (l in db.lops ==> r.lops[l] == db.lops[l]))
    && r.dangKys == db.dangKys && r.diems == db.diems && r.tichLuy == db.tichLuy && r.dangKyKe == db.dangKyKe
  }

  /** A successful creation adds one row, under a new key, of the requested course and term and with the
      rest as requested. Otherwise nothing changes. */
  lemma CreateStores(dm: DanhMuc, db: Db, quyen: bool, mon: nat, hk: nat, yc: YeuCauLop)
    requires ToanVen(dm, db)
    ensures var (r, kc), k := Create(dm, db, quyen, mon, hk, yc), db.lopKe;
            if kc == ThanhCong then
              && k !in db.lops && k in r.lops && ChiDoiLop(db, r, k) && r.lopKe == k + 1
              && r.lops[k].maLopHocKy == k && r.lops[k].maMonHoc == mon && r.lops[k].maHocKy == hk
              && LaYeuCau(r.lops[k], yc)
            else r == db
  {
    LopMoiDung(db.lopKe, mon, hk, yc);
  }

  /** A successful update leaves key, course and term of the row and gives it the rest as requested. */
  lemma UpdateStores(dm: DanhMuc, db: Db, quyen: bool, id: nat, yc: YeuCauLop)
    requires ToanVen(dm, db)
    ensures var (r, kc) := Update(dm, db, quyen, id, yc);
            if kc == ThanhCong then
              && id in db.lops && id in r.lops && ChiDoiLop(db, r, id) && r.lopKe == db.lopKe
              && r.lops[id].maLopHocKy == id && r.lops[id].maMonHoc == db.lops[id].maMonHoc
              && r.lops[id].maHocKy == db.lops[id].maHocKy && LaYeuCau(r.lops[id], yc)
            else r == db
  {
    if id in db.lops { LopMoiDung(id, db.lops[id].maMonHoc, db.lops[id].maHocKy, yc); }
  }

  // ---------------------------------------------------------------- which requests are accepted

  /** What is asked of the request by itself. */
  ghost predicate MauDung(yc: YeuCauLop) {
    !Blank(yc.tenLop) && (yc.loaiHinh == "Lý thuyết" || yc.loaiHinh == "Thực hành") && yc.siSoToiDa > 0 &&
    LichHopLe(yc.lichHocs)
  }

  ghost predicate GiangVienBiet(dm: DanhMuc, yc: YeuCauLop) {
    yc.maGiangVien.Some? ==> yc.maGiangVien.value in dm.giangViens
  }

  lemma MauNghia(yc: YeuCauLop)
    ensures KiemTraMau(yc) == ThanhCong && LoiLichHocs(yc.lichHocs).None? <==> MauDung(yc)
  {
    TrimNghia(yc.tenLop);
    TrimNghia(Trim(yc.tenLop));
    ScheduleCheckExact(yc.lichHocs);
  }

  /** The checks against the other classes let pass exactly a row that can stand beside each of them. */
  lemma XepNghia(dm: DanhMuc, db: Db, ma: nat, mon: nat, hk: nat, yc: YeuCauLop, tru: Option<nat>)
    requires LoiLichHocs(yc.lichHocs).None?
    ensures KiemTraXep(dm, db, mon, hk, yc, tru) == ThanhCong <==>
            GiangVienBiet(dm, yc) &&
            forall l :: l in db.lops && Some(l) != tru ==> HoaThuan(dm.upper, LopMoi(ma, mon, hk, yc), db.lops[l])
  {
    var moi := LopMoi(ma, mon, hk, yc);
    var xep := KiemTraXep(dm, db, mon, hk, yc, tru);
    if xep == ThanhCong {
      forall l | l in db.lops && Some(l) != tru ensures HoaThuan(dm.upper, moi, db.lops[l]) {
        LopMoiHoaThuan(dm, db, ma, mon, hk, yc, tru, l);
      }
    } else {
      if l :| l in db.lops && db.lops[l].maHocKy == hk && Some(l) != tru &&
              TranhPhongLich(dm.upper, yc.lichHocs, db.lops[l].lichHocs) {
        LuuLichGiu(dm.upper, yc.lichHocs, db.lops[l].lichHocs);
        assert !HoaThuan(dm.upper, moi, db.lops[l]);
      }
      if l :| l in db.lops && db.lops[l].tenLop == Trim(yc.tenLop) && db.lops[l].maMonHoc == mon &&
              db.lops[l].maHocKy == hk && Some(l) != tru {
        assert !HoaThuan(dm.upper, moi, db.lops[l]);
      }
      if yc.maGiangVien.Some? {
        if l :| l in db.lops && db.lops[l].maHocKy == hk && Some(l) != tru &&
                yc.maGiangVien.value in db.lops[l].giangViens && TrungNhau(yc.lichHocs, db.lops[l].lichHocs) {
          LuuLichGiu(dm.upper, yc.lichHocs, db.lops[l].lichHocs);
          assert yc.maGiangVien.value in moi.giangViens;
          assert !HoaThuan(dm.upper, moi, db.lops[l]);
        }
      }
    }
  }

  /** The fields by which two classes can be in each other's way. */
  ghost predicate CungTranh(a: LopHoc, b: LopHoc) {
    a.maHocKy == b.maHocKy && a.maMonHoc == b.maMonHoc && a.tenLop == b.tenLop && a.lichHocs == b.lichHocs &&
    forall g: nat :: g in a.giangViens <==> g in b.giangViens
  }

  /** A row with these contents is the one that would be stored, as far as other classes are concerned. */
  lemma CungYeuCau(m: LopHoc, ma: nat, yc: YeuCauLop)
    requires LaYeuCau(m, yc)
    ensures CungTranh(m, LopMoi(ma, m.maMonHoc, m.maHocKy, yc))
  {
    var moi := LopMoi(ma, m.maMonHoc, m.maHocKy, yc);
    forall i | 0 <= i < |m.lichHocs| ensures m.lichHocs[i] == moi.lichHocs[i] {
      assert LaBuoi(m.lichHocs[i], yc.lichHocs[i]);
    }
  }

  /** Creation succeeds exactly for a well-formed request of someone entitled, for a known course, term and
      lecturer, whose class m could stand beside every class of the catalogue. */
  lemma CreateExact(dm: DanhMuc, db: Db, quyen: bool, mon: nat, hk: nat, yc: YeuCauLop, m: LopHoc)
    requires m.maMonHoc == mon && m.maHocKy == hk && LaYeuCau(m, yc)
    ensures Create(dm, db, quyen, mon, hk, yc).1 == ThanhCong <==>
            && MauDung(yc) && quyen && mon in dm.monHocs && hk in dm.hocKys && GiangVienBiet(dm, yc)
            && forall l :: l in db.lops ==> HoaThuan(dm.upper, m, db.lops[l])
  {
    MauNghia(yc);
    CungYeuCau(m, db.lopKe, yc);
    if LoiLichHocs(yc.lichHocs).None? { XepNghia(dm, db, db.lopKe, mon, hk, yc, None); }
    HoaThuanCung(dm, db, m, LopMoi(db.lopKe, mon, hk, yc));
  }

  lemma HoaThuanCung(dm: DanhMuc, db: Db, a: LopHoc, b: LopHoc)
    requires CungTranh(a, b)
    ensures forall l :: l in db.lops ==> (HoaThuan(dm.upper, a, db.lops[l]) <==> HoaThuan(dm.upper, b, db.lops[l]))
  {
  }

  /** An update succeeds exactly for a well-formed request of someone entitled, for a class of the catalogue
      and a known lecturer, when the changed class m could stand beside every other class. */
  lemma UpdateSucceedsExact(dm: DanhMuc, db: Db, quyen: bool, id: nat, yc: YeuCauLop, m: LopHoc)
    requires id in db.lops ==> m.maMonHoc == db.lops[id].maMonHoc && m.maHocKy == db.lops[id].maHocKy
    requires LaYeuCau(m, yc)
    ensures Update(dm, db, quyen, id, yc).1 == ThanhCong <==>
            && id in db.lops && MauDung(yc) && quyen && GiangVienBiet(dm, yc)
            && forall l :: l in db.lops && l != id ==> HoaThuan(dm.upper, m, db.lops[l])
  {
    MauNghia(yc);
    if id in db.lops {
      CungYeuCau(m, id, yc);
      if LoiLichHocs(yc.lichHocs).None? { XepNghia(dm, db, id, m.maMonHoc, m.maHocKy, yc, Some(id)); }
      HoaThuanCung(dm, db, m, LopMoi(id, m.maMonHoc, m.maHocKy, yc));
      assert forall l :: Some(l) != Some(id) <==> l != id;
    }
  }

  ghost predicate CoBuoiTrung(a: seq<Buoi>, b: seq<Buoi>) {
    exists i, j :: 0 <= i < |a| && 0 <= j < |b| && BuoiTrungNhau(a[i], b[j])
  }

  lemma LuuVanTrung(m: LopHoc, yc: YeuCauLop, lich: seq<Buoi>)
    requires LaYeuCau(m, yc) && CoBuoiTrung(lich, yc.lichHocs)
    ensures TrungNhau(lich, m.lichHocs)
  {
    var i, j :| 0 <= i < |lich| && 0 <= j < |yc.lichHocs| && BuoiTrungNhau(lich[i], yc.lichHocs[j]);
    var x, z := lich[i], m.lichHocs[j];
    assert LaBuoi(z, yc.lichHocs[j]);
    assert x in lich && z in m.lichHocs && BuoiTrungNhau(x, z);
    assert TrungVoi(x, m.lichHocs);
  }

  /** The request passes the checks that come before that on the lecturer. */
  ghost predicate QuaCacBuocDau(dm: DanhMuc, db: Db, quyen: bool, mon: nat, hk: nat, yc: YeuCauLop) {
    && MauDung(yc) && quyen && mon in dm.monHocs && hk in dm.hocKys
    && !PhongBiTrung(dm, db, hk, yc.lichHocs, None) && !TenBiTrung(db, Trim(yc.tenLop), mon, hk, None)
  }

  lemma BusyRefused(dm: DanhMuc, db: Db, quyen: bool, mon: nat, hk: nat, yc: YeuCauLop, l: nat)
    requires QuaCacBuocDau(dm, db, quyen, mon, hk, yc) && l in db.lops && db.lops[l].maHocKy == hk
    requires yc.maGiangVien.Some? && yc.maGiangVien.value in dm.giangViens
    requires yc.maGiangVien.value in db.lops[l].giangViens && TrungNhau(yc.lichHocs, db.lops[l].lichHocs)
    ensures Create(dm, db, quyen, mon, hk, yc) == (db, TrungGiangVien)
  {
    MauNghia(yc);
    assert GiangVienBiTrung(db, yc.maGiangVien.value, hk, yc.lichHocs, None);
  }

  lemma TaoDuoc(dm: DanhMuc, db: Db, quyen: bool, mon: nat, hk: nat, yc: YeuCauLop)
    requires Create(dm, db, quyen, mon, hk, yc).1 == ThanhCong
    ensures GiangVienBiet(dm, yc)
  {
  }

  /** The lecturer of a stored class is busy: creating a further class of that lecturer in the term that
      overlaps it is refused for that reason, once the earlier checks are passed. */
  lemma LecturerKeptBusy(dm: DanhMuc, db: Db, quyen: bool, mon: nat, hk: nat, yc: YeuCauLop,
                         r: Db, quyen': bool, mon': nat, yc': YeuCauLop)
    requires ToanVen(dm, db) && Create(dm, db, quyen, mon, hk, yc) == (r, ThanhCong)
    requires yc.maGiangVien.Some? && yc'.maGiangVien == yc.maGiangVien && CoBuoiTrung(yc'.lichHocs, yc.lichHocs)
    requires QuaCacBuocDau(dm, r, quyen', mon', hk, yc')
    ensures Create(dm, r, quyen', mon', hk, yc') == (r, TrungGiangVien)
  {
    CreateStores(dm, db, quyen, mon, hk, yc);
    TaoDuoc(dm, db, quyen, mon, hk, yc);
    LuuVanTrung(r.lops[db.lopKe], yc, yc'.lichHocs);
    BusyRefused(dm, r, quyen', mon', hk, yc', db.lopKe);
  }

  // ---------------------------------------------------------------- what a refusal means

  /** The error is that of this session. */
  ghost predicate LoiCua(b: Buoi, loi: LoiLich) {
    match loi
    case ThuSai => !(2 <= b.thu <= 8)
    case TietSai => !(1 <= b.tietBatDau <= 10) || !(1 <= b.tietKetThuc <= 10)
    case KetTruocBat => b.tietKetThuc < b.tietBatDau
    case QuaBuoi => b.tietBatDau <= 5 < b.tietKetThuc
    case NgaySai => b.ngayKetThuc < b.ngayBatDau
    case KhongCoBuoi => false
    case TuTrung => false
  }

  ghost predicate KhongLoi(b: Buoi) { forall loi :: !LoiCua(b, loi) }

  ghost predicate LoiDauTien(bs: seq<Buoi>, i: nat, loi: LoiLich) {
    i < |bs| && LoiCua(bs[i], loi) && forall j :: 0 <= j < i ==> KhongLoi(bs[j])
  }

  lemma LoiBuoiNghia(b: Buoi)
    ensures match LoiBuoi(b) case Some(loi) => LoiCua(b, loi) case None => KhongLoi(b)
  {
  }

  lemma LoiDauThem(bs: seq<Buoi>, con: seq<Buoi>, i: nat, loi: LoiLich)
    requires bs != [] && con == bs[1..] && KhongLoi(bs[0]) && LoiDauTien(con, i, loi)
    ensures LoiDauTien(bs, i + 1, loi)
  {
    forall j | 0 <= j < i + 1 ensures KhongLoi(bs[j]) {
      if j > 0 { assert bs[j] == con[j - 1]; }
    }
  }

  lemma {:induction false} LoiCacBuoiDau(bs: seq<Buoi>)
    ensures LoiCacBuoi(bs).Some? ==> exists i: nat :: LoiDauTien(bs, i, LoiCacBuoi(bs).value)
    ensures LoiCacBuoi(bs).None? ==> forall b :: b in bs ==> KhongLoi(b)
  {
    if bs != [] {
      LoiBuoiNghia(bs[0]);
      LoiCacBuoiDau(bs[1..]);
      if LoiBuoi(bs[0]).Some? {
        assert LoiDauTien(bs, 0, LoiBuoi(bs[0]).value);
      } else if LoiCacBuoi(bs[1..]).Some? {
        var i: nat :| LoiDauTien(bs[1..], i, LoiCacBuoi(bs[1..]).value);
        LoiDauThem(bs, bs[1..], i, LoiCacBuoi(bs[1..]).value);
      } else {
        assert forall b :: b in bs <==> b == bs[0] || b in bs[1..];
      }
    }
  }

  /** The error reported for a schedule: none given, that of the first faulty session, or, with none faulty, that
      two of them overlap. */
  lemma ScheduleErrorTrue(bs: seq<Buoi>)
    ensures match LoiLichHocs(bs)
            case None => true
            case Some(KhongCoBuoi) => bs == []
            case Some(TuTrung) =>
              && (forall b :: b in bs ==> KhongLoi(b))
              && exists i, j :: 0 <= i < j < |bs| && BuoiTrungNhau(bs[i], bs[j])
            case Some(loi) => exists i: nat :: LoiDauTien(bs, i, loi)
  {
    LoiCacBuoiDau(bs);
  }

  /** Some class of the term uses a room of the schedule at an overlapping time. */
  ghost predicate CoPhongTrung(dm: DanhMuc, db: Db, hk: nat, lich: seq<Buoi>) {
    exists l, x, y :: l in db.lops && db.lops[l].maHocKy == hk && x in lich && y in db.lops[l].lichHocs &&
                      TranhPhong(dm.upper, x, y)
  }

  /** Some class of the course and term has the name. */
  ghost predicate CoTenTrung(db: Db, mon: nat, hk: nat, ten: string) {
    exists l :: l in db.lops && db.lops[l].maHocKy == hk && db.lops[l].maMonHoc == mon && db.lops[l].tenLop == ten
  }

  /** Some class of the lecturer in the term overlaps the schedule. */
  ghost predicate CoGiangVienBan(db: Db, hk: nat, gv: nat, lich: seq<Buoi>) {
    exists l :: l in db.lops && db.lops[l].maHocKy == hk && gv in db.lops[l].giangViens &&
                CoBuoiTrung(lich, db.lops[l].lichHocs)
  }

  lemma PhongTrungNghia(dm: DanhMuc, db: Db, hk: nat, lich: seq<Buoi>)
    requires PhongBiTrung(dm, db, hk, lich, None)
    ensures CoPhongTrung(dm, db, hk, lich)
  {
    var l :| l in db.lops && db.lops[l].maHocKy == hk && Some(l) != None &&
             TranhPhongLich(dm.upper, lich, db.lops[l].lichHocs);
    var x :| x in lich && TranhPhongVoi(dm.upper, x, db.lops[l].lichHocs);
    var y :| y in db.lops[l].lichHocs && TranhPhong(dm.upper, x, y);
  }

  lemma GiangVienBanNghia(db: Db, hk: nat, gv: nat, lich: seq<Buoi>)
    requires GiangVienBiTrung(db, gv, hk, lich, None)
    ensures CoGiangVienBan(db, hk, gv, lich)
  {
    var l :| l in db.lops && db.lops[l].maHocKy == hk && Some(l) != None && gv in db.lops[l].giangViens &&
             TrungNhau(lich, db.lops[l].lichHocs);
    var x :| x in lich && TrungVoi(x, db.lops[l].lichHocs);
    var y :| y in db.lops[l].lichHocs && BuoiTrungNhau(x, y);
    assert CoBuoiTrung(lich, db.lops[l].lichHocs);
  }

  lemma XepTuChoi(dm: DanhMuc, db: Db, mon: nat, hk: nat, yc: YeuCauLop)
    ensures var kc := KiemTraXep(dm, db, mon, hk, yc, None);
            && (kc.LichSai? ==> LoiLichHocs(yc.lichHocs) == Some(kc.loi))
            && (kc == TrungPhong ==> CoPhongTrung(dm, db, hk, yc.lichHocs))
            && (kc == TrungTen ==> CoTenTrung(db, mon, hk, Trim(yc.tenLop)))
            && (kc == GiangVienKhongCo ==> yc.maGiangVien.Some? && yc.maGiangVien.value !in dm.giangViens)
            && (kc == TrungGiangVien ==>
                  yc.maGiangVien.Some? && CoGiangVienBan(db, hk, yc.maGiangVien.value, yc.lichHocs))
            && (kc in {ThanhCong, TrungPhong, TrungTen, GiangVienKhongCo, TrungGiangVien} || kc.LichSai?)
  {
    if PhongBiTrung(dm, db, hk, yc.lichHocs, None) { PhongTrungNghia(dm, db, hk, yc.lichHocs); }
    if yc.maGiangVien.Some? && GiangVienBiTrung(db, yc.maGiangVien.value, hk, yc.lichHocs, None) {
      GiangVienBanNghia(db, hk, yc.maGiangVien.value, yc.lichHocs);
    }
  }

  lemma MauTuChoi(yc: YeuCauLop)
    ensures var kc := KiemTraMau(yc);
            && kc in {ThanhCong, TenTrong, SaiLoaiHinh, SaiSiSo}
            && (kc == TenTrong ==> Blank(yc.tenLop)) && (kc == SaiSiSo ==> yc.siSoToiDa <= 0)
            && (kc == SaiLoaiHinh ==> yc.loaiHinh != "Lý thuyết" && yc.loaiHinh != "Thực hành")
  {
    TrimNghia(yc.tenLop);
    TrimNghia(Trim(yc.tenLop));
  }

  /** Every refusal of a new class is true of the request and the catalogue. */
  lemma CreateRefusalsTrue(dm: DanhMuc, db: Db, quyen: bool, mon: nat, hk: nat, yc: YeuCauLop)
    ensures var kc := Create(dm, db, quyen, mon, hk, yc).1;
            && (kc == TenTrong ==> Blank(yc.tenLop))
            && (kc == SaiLoaiHinh ==> yc.loaiHinh != "Lý thuyết" && yc.loaiHinh != "Thực hành")
            && (kc == SaiSiSo ==> yc.siSoToiDa <= 0) && (kc == KhongDuocPhep ==> !quyen)
            && (kc == MonKhongCo ==> mon !in dm.monHocs) && (kc == KyKhongCo ==> hk !in dm.hocKys)
            && (kc.LichSai? ==> LoiLichHocs(yc.lichHocs) == Some(kc.loi))
            && (kc == TrungPhong ==> CoPhongTrung(dm, db, hk, yc.lichHocs))
            && (kc == TrungTen ==> CoTenTrung(db, mon, hk, Trim(yc.tenLop)))
            && (kc == GiangVienKhongCo ==> yc.maGiangVien.Some? && yc.maGiangVien.value !in dm.giangViens)
            && (kc == TrungGiangVien ==>
                  yc.maGiangVien.Some? && CoGiangVienBan(db, hk, yc.maGiangVien.value, yc.lichHocs))
  {
    MauTuChoi(yc);
    XepTuChoi(dm, db, mon, hk, yc);
  }

  // ---------------------------------------------------------------- removing a class

  /** Deleting succeeds exactly for a class without students, and removes its row alone. */
  lemma DeleteExact(dm: DanhMuc, db: Db, quyen: bool, id: nat)
    requires ToanVen(dm, db)
    ensures var (r, kc) := Delete(db, quyen, id);
            && (kc == ThanhCong <==>
                  id in db.lops && quyen && forall d :: d in db.dangKys ==> db.dangKys[d].maLopHocKy != id)
            && (kc == ThanhCong ==> id !in r.lops && ChiDoiLop(db, r, id) && r.lopKe == db.lopKe)
            && (kc != ThanhCong ==> r == db)
  {
    var ds := DangKyCuaLop(db, id);
    if SiSo(db, id) > 0 { var d: nat :| d in ds; }
    if d :| d in db.dangKys && db.dangKys[d].maLopHocKy == id { assert d in ds; }
  }

  /** Cancelling a class removes its row, exactly its registrations, and exactly their grades. */
  lemma CancelClassRemoves(dm: DanhMuc, db: Db, quyen: bool, id: nat)
    requires ToanVen(dm, db)
    ensures var (r, kc) := HuyLop(db, quyen, id);
            && (kc == ThanhCong <==> id in db.lops && quyen) && (kc != ThanhCong ==> r == db)
            && (kc == ThanhCong ==>
                  && id !in r.lops && ChiDoiLop(db, r.(dangKys := db.dangKys, diems := db.diems), id)
                  && r.lopKe == db.lopKe
                  && (forall d :: d in r.dangKys <==> d in db.dangKys && db.dangKys[d].maLopHocKy != id)
                  && (forall d :: d in r.dangKys ==> r.dangKys[d] == db.dangKys[d])
                  && (forall d :: d in r.diems <==> d in db.diems && db.dangKys[d].maLopHocKy != id)
                  && (forall d :: d in r.diems ==> r.diems[d] == db.diems[d]))
  {
  }
}
