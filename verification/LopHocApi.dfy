/** The class catalogue endpoints, updating the tables in place. */
module LopHocApi {
  import opened Wrappers
  import opened Collections
  import opened LichHoc
  import opened Text
  import opened Entities
  import opened CoSoDuLieu
  import opened DangKyHocPhan
  import opened LopHocTrongKy
  import opened AppDbContext

  // ---------------------------------------------------------------- sessions of other classes

  /** The sessions with a room, of other classes of the term. */
  function LichCoPhong(db: Db, hk: nat, tru: Option<nat>, ids: seq<nat>): seq<Buoi> {
    if ids == [] then []
    else
      (if ids[0] in db.lops && db.lops[ids[0]].maHocKy == hk && Some(ids[0]) != tru
       then LocPhong(db.lops[ids[0]].lichHocs) else []) + LichCoPhong(db, hk, tru, ids[1..])
  }

  function LocPhong(bs: seq<Buoi>): (r: seq<Buoi>)
    ensures forall b :: b in r <==> b in bs && CoPhong(b)
  {
    if bs == [] then [] else (if CoPhong(bs[0]) then [bs[0]] else []) + LocPhong(bs[1..])
  }

  lemma {:induction false} LichCoPhongNghia(db: Db, hk: nat, tru: Option<nat>, ids: seq<nat>, y: Buoi)
    ensures y in LichCoPhong(db, hk, tru, ids) <==>
            CoPhong(y) && exists l :: l in ids && l in db.lops && db.lops[l].maHocKy == hk && Some(l) != tru &&
                                      y in db.lops[l].lichHocs
  {
    if ids != [] {
      LichCoPhongNghia(db, hk, tru, ids[1..], y);
      var x := ids[0];
      assert forall l :: l in ids <==> l == x || l in ids[1..];
    }
  }

  /** The sessions a lecturer teaches in the term, in other classes. */
  function LichCuaGiangVien(db: Db, gv: nat, hk: nat, tru: Option<nat>, ids: seq<nat>): seq<Buoi> {
    if ids == [] then []
    else
      (if ids[0] in db.lops && db.lops[ids[0]].maHocKy == hk && Some(ids[0]) != tru && gv in db.lops[ids[0]].giangViens
       then db.lops[ids[0]].lichHocs else []) + LichCuaGiangVien(db, gv, hk, tru, ids[1..])
  }

  lemma {:induction false} LichGiangVienNghia(db: Db, gv: nat, hk: nat, tru: Option<nat>, ids: seq<nat>, y: Buoi)
    ensures y in LichCuaGiangVien(db, gv, hk, tru, ids) <==>
            exists l :: l in ids && l in db.lops && db.lops[l].maHocKy == hk && Some(l) != tru &&
                        gv in db.lops[l].giangViens && y in db.lops[l].lichHocs
  {
    if ids != [] {
      LichGiangVienNghia(db, gv, hk, tru, ids[1..], y);
      var x := ids[0];
      assert forall l :: l in ids <==> l == x || l in ids[1..];
    }
  }

  lemma PhongQuaDanhSach(dm: DanhMuc, db: Db, hk: nat, lich: seq<Buoi>, tru: Option<nat>)
    ensures PhongBiTrung(dm, db, hk, lich, tru) <==>
            exists x, y :: x in lich && y in LichCoPhong(db, hk, tru, SortedKeys(db.lops.Keys)) &&
              TranhPhong(dm.upper, x, y)
  {
    var ids := SortedKeys(db.lops.Keys);
    if PhongBiTrung(dm, db, hk, lich, tru) {
      var l :| l in db.lops && db.lops[l].maHocKy == hk && Some(l) != tru &&
               TranhPhongLich(dm.upper, lich, db.lops[l].lichHocs);
      var x :| x in lich && TranhPhongVoi(dm.upper, x, db.lops[l].lichHocs);
      var y :| y in db.lops[l].lichHocs && TranhPhong(dm.upper, x, y);
      assert l in ids;
      LichCoPhongNghia(db, hk, tru, ids, y);
    }
    forall x, y | x in lich && y in LichCoPhong(db, hk, tru, ids) && TranhPhong(dm.upper, x, y)
      ensures PhongBiTrung(dm, db, hk, lich, tru)
    {
      LichCoPhongNghia(db, hk, tru, ids, y);
      var l :| l in ids && l in db.lops && db.lops[l].maHocKy == hk && Some(l) != tru && y in db.lops[l].lichHocs;
      assert TranhPhongVoi(dm.upper, x, db.lops[l].lichHocs);
      assert TranhPhongLich(dm.upper, lich, db.lops[l].lichHocs);
    }
  }

  lemma GiangVienQuaDanhSach(db: Db, gv: nat, hk: nat, lich: seq<Buoi>, tru: Option<nat>)
    ensures GiangVienBiTrung(db, gv, hk, lich, tru) <==>
            exists x, y :: x in lich && y in LichCuaGiangVien(db, gv, hk, tru, SortedKeys(db.lops.Keys)) &&
              BuoiTrungNhau(x, y)
  {
    var ids := SortedKeys(db.lops.Keys);
    if GiangVienBiTrung(db, gv, hk, lich, tru) {
      var l :| l in db.lops && db.lops[l].maHocKy == hk && Some(l) != tru && gv in db.lops[l].giangViens &&
               TrungNhau(lich, db.lops[l].lichHocs);
      var x :| x in lich && TrungVoi(x, db.lops[l].lichHocs);
      var y :| y in db.lops[l].lichHocs && BuoiTrungNhau(x, y);
      assert l in ids;
      LichGiangVienNghia(db, gv, hk, tru, ids, y);
    }
    forall x, y | x in lich && y in LichCuaGiangVien(db, gv, hk, tru, ids) && BuoiTrungNhau(x, y)
      ensures GiangVienBiTrung(db, gv, hk, lich, tru)
    {
      LichGiangVienNghia(db, gv, hk, tru, ids, y);
      var l :| l in ids && l in db.lops && db.lops[l].maHocKy == hk && Some(l) != tru && gv in db.lops[l].giangViens &&
               y in db.lops[l].lichHocs;
      assert TrungVoi(x, db.lops[l].lichHocs);
      assert TrungNhau(lich, db.lops[l].lichHocs);
    }
  }

  /** Compares every session with every other one for the same room at overlapping times. */
  method TimTrungPhong(upper: char -> char, a: seq<Buoi>, b: seq<Buoi>) returns (trung: bool)
    requires (forall x :: x in a ==> CoPhong(x)) && (forall y :: y in b ==> CoPhong(y))
    ensures trung <==> exists x, y :: x in a && y in b && TranhPhong(upper, x, y)
  {
    for i := 0 to |a|
      invariant forall x, y :: x in a[..i] && y in b ==> !TranhPhong(upper, x, y)
    {
      var lich := a[i];
      assert lich in a;
      for j := 0 to |b|
        invariant forall y :: y in b[..j] ==> !TranhPhong(upper, lich, y)
      {
        var khac := b[j];
        assert khac in b;
        if DoiHoa(upper, Trim(lich.phongHoc.value)) == DoiHoa(upper, Trim(khac.phongHoc.value)) &&
           BuoiTrungNhau(lich, khac)
        {
          assert TranhPhong(upper, lich, khac);
          return true;
        }
      }
      assert b[..|b|] == b;
    }
    assert a[..|a|] == a;
    return false;
  }

  // ---------------------------------------------------------------- the endpoints

  /** The table without the rows of these keys. */
  ghost function BoCac<V>(goc: map<nat, V>, ks: seq<nat>): map<nat, V> { map k | k in goc && k !in ks :: goc[k] }

  lemma BoCacThem<V>(goc: map<nat, V>, ks: seq<nat>, i: nat)
    requires i < |ks|
    ensures var con := BoCac(goc, ks[..i]);
            BoCac(goc, ks[..i + 1]) == (if ks[i] in con then con - {ks[i]} else con)
  {
    assert forall k :: k in ks[..i + 1] <==> k in ks[..i] || k == ks[i];
  }

  lemma BoCacHet<V>(goc: map<nat, V>, ks: seq<nat>, bo: set<nat>)
    requires forall k :: k in ks <==> k in bo
    ensures BoCac(goc, ks[..0]) == goc && BoCac(goc, ks[..|ks|]) == goc - bo
  {
    assert ks[..|ks|] == ks;
  }

  class LopHocTrongKyController {
    const db: AppDb
    const dm: DanhMuc

    constructor (db: AppDb, dm: DanhMuc)
      ensures this.db == db && this.dm == dm
    {
      this.db, this.dm := db, dm;
    }

    method ValidatePhongHocKhongTrung(hk: nat, lichHocs: seq<Buoi>, tru: Option<nat>) returns (trung: bool)
      ensures trung <==> PhongBiTrung(dm, db.Gia(), hk, lichHocs, tru)
    {
      var t := db.Gia();
      var canKiemTra := LocPhong(lichHocs);
      var lichKhac := LichCoPhong(t, hk, tru, SortedKeys(t.lops.Keys));
      forall y | y in lichKhac ensures CoPhong(y) {
        LichCoPhongNghia(t, hk, tru, SortedKeys(t.lops.Keys), y);
      }
      trung := TimTrungPhong(dm.upper, canKiemTra, lichKhac);
      PhongQuaDanhSach(dm, t, hk, lichHocs, tru);
      assert forall x, y :: x in lichHocs && TranhPhong(dm.upper, x, y) ==> x in canKiemTra;
    }

    method ValidateGiangVienKhongTrung(gv: nat, hk: nat, lichHocs: seq<Buoi>, tru: Option<nat>) returns (trung: bool)
      ensures trung <==> GiangVienBiTrung(db.Gia(), gv, hk, lichHocs, tru)
    {
      var t := db.Gia();
      var lichKhac := LichCuaGiangVien(t, gv, hk, tru, SortedKeys(t.lops.Keys));
      trung := KiemTraTrungNhau(lichHocs, lichKhac);
      GiangVienQuaDanhSach(t, gv, hk, lichHocs, tru);
    }

    /** The checks on schedule, room, name and lecturer. */
    method KiemTra(mon: nat, hk: nat, yc: YeuCauLop, tru: Option<nat>) returns (kc: KetCuc)
      ensures kc == KiemTraXep(dm, db.Gia(), mon, hk, yc, tru)
    {
      var lichError := ValidateLichHocs(yc.lichHocs);
      if lichError.Some? { return LichSai(lichError.value); }
      var phongError := ValidatePhongHocKhongTrung(hk, yc.lichHocs, tru);
      if phongError { return TrungPhong; }
      if TenBiTrung(db.Gia(), Trim(yc.tenLop), mon, hk, tru) { return TrungTen; }
      if yc.maGiangVien.Some? {
        if yc.maGiangVien.value !in dm.giangViens { return GiangVienKhongCo; }
        var trungGioError := ValidateGiangVienKhongTrung(yc.maGiangVien.value, hk, yc.lichHocs, tru);
        if trungGioError { return TrungGiangVien; }
      }
      return ThanhCong;
    }

    method Create(quyen: bool, mon: nat, hk: nat, yc: YeuCauLop) returns (kc: KetCuc)
      modifies db
      ensures (db.Gia(), kc) == LopHocTrongKy.Create(dm, old(db.Gia()), quyen, mon, hk, yc)
    {
      var ten := Trim(yc.tenLop);
      if Blank(ten) { return TenTrong; }
      if yc.loaiHinh !in {LY_THUYET, THUC_HANH} { return SaiLoaiHinh; }
      if yc.siSoToiDa <= 0 { return SaiSiSo; }
      if !quyen { return KhongDuocPhep; }
      if mon !in dm.monHocs { return MonKhongCo; }
      if hk !in dm.hocKys { return KyKhongCo; }
      var loi := KiemTra(mon, hk, yc, None);
      if loi != ThanhCong { return loi; }

      var ma := db.lopKe;
      db.lops := db.lops[ma := LopHoc(ma, mon, hk, ten, yc.loaiHinh, yc.siSoToiDa, LuuLich(yc.lichHocs), [])];
      db.lopKe := ma + 1;
      if yc.maGiangVien.Some? {
        db.lops := db.lops[ma := db.lops[ma].(giangViens := [yc.maGiangVien.value])];
      }
      assert db.lops == old(db.lops)[ma := LopMoi(ma, mon, hk, yc)];
      return ThanhCong;
    }

    method Update(quyen: bool, id: nat, yc: YeuCauLop) returns (kc: KetCuc)
      requires ToanVen(dm, db.Gia())
      modifies db
      ensures (db.Gia(), kc) == LopHocTrongKy.Update(dm, old(db.Gia()), quyen, id, yc)
    {
      if id !in db.lops { return KhongTimThay; }
      if !quyen { return KhongDuocPhep; }
      var entity := db.lops[id];
      var ten := Trim(yc.tenLop);
      if Blank(ten) { return TenTrong; }
      if yc.loaiHinh !in {LY_THUYET, THUC_HANH} { return SaiLoaiHinh; }
      if yc.siSoToiDa <= 0 { return SaiSiSo; }
      var loi := KiemTra(entity.maMonHoc, entity.maHocKy, yc, Some(id));
      if loi != ThanhCong { return loi; }

      entity := entity.(tenLop := ten, loaiHinh := yc.loaiHinh, siSoToiDa := yc.siSoToiDa);
      entity := entity.(lichHocs := LuuLich(yc.lichHocs), giangViens := []);
      if yc.maGiangVien.Some? { entity := entity.(giangViens := [yc.maGiangVien.value]); }
      assert entity == LopMoi(id, entity.maMonHoc, entity.maHocKy, yc);
      db.lops := db.lops[id := entity];
      return ThanhCong;
    }

    method Delete(quyen: bool, id: nat) returns (kc: KetCuc)
      modifies db
      ensures (db.Gia(), kc) == LopHocTrongKy.Delete(old(db.Gia()), quyen, id)
    {
      if id !in db.lops { return KhongTimThay; }
      if !quyen { return KhongDuocPhep; }
      if SiSo(db.Gia(), id) > 0 { return DaCoSinhVien; }
      db.lops := db.lops - {id};
      return ThanhCong;
    }

    /** Removes the grades of these registrations. */
    method XoaDiem(bo: set<nat>)
      modifies db`diems
      ensures db.diems == old(db.diems) - bo
    {
      var dks := SortedKeys(bo);
      ghost var goc := db.diems;
      BoCacHet(goc, dks, bo);
      for i := 0 to |dks|
        invariant db.diems == BoCac(goc, dks[..i])
      {
        BoCacThem(goc, dks, i);
        if dks[i] in db.diems { db.diems := db.diems - {dks[i]}; }
      }
    }

    method HuyLop(quyen: bool, id: nat) returns (kc: KetCuc)
      modifies db
      ensures (db.Gia(), kc) == LopHocTrongKy.HuyLop(old(db.Gia()), quyen, id)
    {
      if id !in db.lops { return KhongTimThay; }
      if !quyen { return KhongDuocPhep; }
      var bo := DangKyCuaLop(db.Gia(), id);
      XoaDiem(bo);
      db.dangKys := db.dangKys - bo;
      db.lops := db.lops - {id};
      return ThanhCong;
    }
  }
}
