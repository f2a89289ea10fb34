/** The advice page: for each curriculum course, whether the student may register for it now, and
    how that compares with what registration enforces. */
module ChuongTrinh {
  import opened Wrappers
  import opened Entities
  import opened TichLuyDiem
  import opened CoSoDuLieu
  import opened DangKyHocPhan

  /** Curriculum entries are courses of the catalogue, each listed once. */
  ghost predicate KhungDung(dm: DanhMuc, ds: seq<KhungMon>) {
    && (forall i :: 0 <= i < |ds| ==> ds[i].maMonHoc in dm.monHocs)
    && (forall i, j :: 0 <= i < j < |ds| ==> ds[i].maMonHoc != ds[j].maMonHoc)
  }

  predicate CoLop(db: Db, hk: nat, mon: nat) {
    exists l :: l in db.lops && db.lops[l].maHocKy == hk && db.lops[l].maMonHoc == mon
  }

  predicate DatTienQuyet(dm: DanhMuc, db: Db, sv: nat, mon: nat)
    requires mon in dm.monHocs
  {
    var tq := dm.monHocs[mon].tienQuyet;
    tq.None? || (var zt := MaxZ(db, sv, tq.value); zt.Some? && zt.value >= DIEM_DAT)
  }

  function MonCt(dm: DanhMuc, db: Db, sv: nat, hk: nat, mk: KhungMon): MonHocCt
    requires sv in dm.sinhViens && hk in dm.hocKys && mk.maMonHoc in dm.monHocs
  {
    var mh := dm.monHocs[mk.maMonHoc];
    var kyDat := KyTrang(dm, sv, hk);
    var z := MaxZ(db, sv, mk.maMonHoc);
    var daDangKyKyNay := DangKyMon(db, sv, hk, mk.maMonHoc) != {};
    var coLop := CoLop(db, hk, mk.maMonHoc);
    var trangThai :=
      if daDangKyKyNay then DangHoc
      else if z.Some? then (if z.value >= DIEM_DAT then DaDat else KhongDat)
      else ChuaHoc;
    var caiThien := z.Some? && z.value >= DIEM_DAT && z.value < DIEM_HET_CAI_THIEN;
    var khongDuDieuKien := !DatTienQuyet(dm, db, sv, mk.maMonHoc);
    var batBuoc := mh.loaiMonHoc == BAT_BUOC;
    var chuaToiKy := batBuoc && mk.kyHoc > kyDat && trangThai != DaDat && !daDangKyKyNay && !caiThien;
    var coTheDangKy :=
      if daDangKyKyNay then false
      else if !coLop then false
      else if z.Some? && z.value >= DIEM_HET_CAI_THIEN then false
      else if khongDuDieuKien then false
      else if chuaToiKy then false
      else true;
    MonHocCt(mk.maMonHoc, mh.tenMonHoc, mh.loaiMonHoc, mh.soTinChi, mk.kyHoc, trangThai, z, coLop, caiThien,
             daDangKyKyNay, khongDuDieuKien, chuaToiKy, coTheDangKy)
  }

  function CacMonCt(dm: DanhMuc, db: Db, sv: nat, hk: nat, ds: seq<KhungMon>): (r: seq<MonHocCt>)
    requires sv in dm.sinhViens && hk in dm.hocKys && KhungDung(dm, ds)
    ensures |r| == |ds| && forall i :: 0 <= i < |ds| ==> r[i] == MonCt(dm, db, sv, hk, ds[i])
  {
    if ds == [] then []
    else
      assert forall i :: 0 <= i < |ds[1..]| ==> ds[1..][i] == ds[i + 1];
      [MonCt(dm, db, sv, hk, ds[0])] + CacMonCt(dm, db, sv, hk, ds[1..])
  }

  /** The student's curriculum in display order. */
  function BuildChuongTrinh(dm: DanhMuc, db: Db, sv: nat, hk: nat): seq<MonHocCt>
    requires sv in dm.sinhViens && hk in dm.hocKys && KhungDung(dm, KhungCua(dm, dm.sinhViens[sv]))
  {
    CacMonCt(dm, db, sv, hk, KhungCua(dm, dm.sinhViens[sv]))
  }

  /** Every guard of registration that concerns the course rather than one class of it. */
  predicate QuaCuaMon(dm: DanhMuc, db: Db, sv: nat, hk: nat, mon: nat)
    requires sv in dm.sinhViens && hk in dm.hocKys && mon in dm.monHocs
  {
    DangKyMon(db, sv, hk, mon) == {} && KiemTraMon(dm, db, sv, mon, hk) == ThanhCong
  }

  lemma {:induction false} TrongKhungTimThay(ds: seq<KhungMon>, i: nat)
    requires i < |ds| && forall j, k :: 0 <= j < k < |ds| ==> ds[j].maMonHoc != ds[k].maMonHoc
    ensures TrongKhung(ds, ds[i].maMonHoc) == Some(ds[i])
  {
    if i > 0 { TrongKhungTimThay(ds[1..], i - 1); }
  }

  /** A required course ahead of the page's term that was failed, and is otherwise eligible. */
  predicate TruotTruocKy(dm: DanhMuc, db: Db, sv: nat, hk: nat, mk: KhungMon)
    requires sv in dm.sinhViens && hk in dm.hocKys && mk.maMonHoc in dm.monHocs
  {
    var z := MaxZ(db, sv, mk.maMonHoc);
    && dm.monHocs[mk.maMonHoc].loaiMonHoc == BAT_BUOC && mk.kyHoc > KyTrang(dm, sv, hk)
    && z.Some? && z.value < DIEM_DAT
    && DangKyMon(db, sv, hk, mk.maMonHoc) == {} && DatTienQuyet(dm, db, sv, mk.maMonHoc)
  }

  /** A required course never attempted and otherwise eligible, of a curriculum term after `tu` and up to
      `den`. */
  predicate ChuaHocGiua(dm: DanhMuc, db: Db, sv: nat, hk: nat, mk: KhungMon, tu: int, den: int)
    requires mk.maMonHoc in dm.monHocs
  {
    && dm.monHocs[mk.maMonHoc].loaiMonHoc == BAT_BUOC && tu < mk.kyHoc <= den
    && MaxZ(db, sv, mk.maMonHoc).None?
    && DangKyMon(db, sv, hk, mk.maMonHoc) == {} && DatTienQuyet(dm, db, sv, mk.maMonHoc)
  }

  /** The page against registration, for a course with a class this term. The page closes a course that
      registration accepts exactly for a failed required course ahead of the page's term, or a required
      course never attempted that lies between the page's term and registration's. It opens one that
      registration refuses exactly for a required course never attempted that lies between the two the
      other way round; never, if registration's term is not the lower one. */
  lemma AdviceExact(dm: DanhMuc, db: Db, sv: nat, hk: nat, i: nat)
    requires sv in dm.sinhViens && hk in dm.hocKys && KhungDung(dm, KhungCua(dm, dm.sinhViens[sv]))
    requires i < |KhungCua(dm, dm.sinhViens[sv])|
    ensures var mk, m := KhungCua(dm, dm.sinhViens[sv])[i], BuildChuongTrinh(dm, db, sv, hk)[i];
            var trang, dangKy := KyTrang(dm, sv, hk), KyDangKy(dm, sv, hk);
            var qua := QuaCuaMon(dm, db, sv, hk, mk.maMonHoc);
            && m.maMonHoc == mk.maMonHoc
            && (m.coTheDangKy ==> CoLop(db, hk, mk.maMonHoc))
            && (CoLop(db, hk, mk.maMonHoc) ==>
                  (!m.coTheDangKy && qua <==>
                   TruotTruocKy(dm, db, sv, hk, mk) || ChuaHocGiua(dm, db, sv, hk, mk, trang, dangKy)) &&
                  (m.coTheDangKy && !qua <==> ChuaHocGiua(dm, db, sv, hk, mk, dangKy, trang)))
            && (trang <= dangKy && m.coTheDangKy ==> qua)
  {
    TrongKhungTimThay(KhungCua(dm, dm.sinhViens[sv]), i);
  }
}
