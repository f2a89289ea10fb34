/** Enrolment: one class per course and term, no overlapping classes in a term, no class over its
    capacity. Which steps keep this, exactly. */
module GhiDanh {
  import opened Wrappers
  import opened LichHoc
  import opened Entities
  import opened CoSoDuLieu
  import opened DangKyHocPhan
  import opened LopHocTrongKy
  import opened NhapDiem
  import opened HeThong

  /** Two classes one student may take together. */
  ghost predicate HocCung(a: LopHoc, b: LopHoc) {
    a.maHocKy == b.maHocKy ==> a.maMonHoc != b.maMonHoc && !TrungNhau(a.lichHocs, b.lichHocs)
  }

  ghost predicate CapDung(db: Db, d: nat, e: nat)
    requires d in db.dangKys && e in db.dangKys
    requires db.dangKys[d].maLopHocKy in db.lops && db.dangKys[e].maLopHocKy in db.lops
  {
    d != e && db.dangKys[d].maSinhVien == db.dangKys[e].maSinhVien ==>
      HocCung(db.lops[db.dangKys[d].maLopHocKy], db.lops[db.dangKys[e].maLopHocKy])
  }

  ghost predicate GhiDanhDung(dm: DanhMuc, db: Db)
    requires ToanVen(dm, db)
  {
    && (forall d, e :: d in db.dangKys && e in db.dangKys ==> CapDung(db, d, e))
    && (forall l :: l in db.lops ==> SiSo(db, l) <= db.lops[l].siSoToiDa)
  }

  // ---------------------------------------------------------------- adding and removing a registration

  lemma SiSoThem(db: Db, sv: nat, ma: nat, l: nat)
    requires db.dangKyKe !in db.dangKys
    ensures SiSo(ThemDangKy(db, sv, ma), l) == SiSo(db, l) + if l == ma then 1 else 0
  {
    var cu, moi := DangKyCuaLop(db, l), DangKyCuaLop(ThemDangKy(db, sv, ma), l);
    if l == ma {
      assert moi == cu + {db.dangKyKe};
    } else {
      assert moi == cu;
    }
  }

  lemma SiSoBo(db: Db, d: nat, l: nat)
    requires d in db.dangKys
    ensures SiSo(BoDangKy(db, d), l) == SiSo(db, l) - if l == db.dangKys[d].maLopHocKy then 1 else 0
  {
    var cu, moi := DangKyCuaLop(db, l), DangKyCuaLop(BoDangKy(db, d), l);
    if l == db.dangKys[d].maLopHocKy {
      assert moi == cu - {d} && d in cu;
    } else {
      assert moi == cu;
    }
  }

  lemma HocCungDoiXung(a: LopHoc, b: LopHoc)
    requires HocCung(a, b)
    ensures HocCung(b, a)
  {
    TrungNhauSymmetric(a.lichHocs, b.lichHocs);
  }

  /** Room for one more class: no class of the course this term, no overlap, a free seat. */
  ghost predicate ConCho(db: Db, sv: nat, ma: nat)
    requires ma in db.lops
  {
    var lop := db.lops[ma];
    && DangKyMon(db, sv, lop.maHocKy, lop.maMonHoc) == {}
    && !TrungLichSinhVien(db, sv, lop.maHocKy, lop.lichHocs, None)
    && SiSo(db, ma) < lop.siSoToiDa
  }

  lemma ConChoTungLop(dm: DanhMuc, db: Db, sv: nat, ma: nat)
    requires ToanVen(dm, db) && ma in db.lops
    ensures ConCho(db, sv, ma) <==>
            SiSo(db, ma) < db.lops[ma].siSoToiDa &&
            forall d :: d in db.dangKys && db.dangKys[d].maSinhVien == sv ==>
              HocCung(db.lops[ma], db.lops[db.dangKys[d].maLopHocKy])
  {
    var lop := db.lops[ma];
    var cu := DangKyMon(db, sv, lop.maHocKy, lop.maMonHoc);
    if ConCho(db, sv, ma) {
      forall d | d in db.dangKys && db.dangKys[d].maSinhVien == sv
        ensures HocCung(lop, db.lops[db.dangKys[d].maLopHocKy])
      {
        assert d !in cu;
        assert db.dangKys[d] == DangKyLopHoc(sv, db.dangKys[d].maLopHocKy);
        assert CoDangKy(db, sv, db.dangKys[d].maLopHocKy);
      }
    } else if cu != {} {
      var d: nat :| d in cu;
      assert !HocCung(lop, db.lops[db.dangKys[d].maLopHocKy]);
    } else if TrungLichSinhVien(db, sv, lop.maHocKy, lop.lichHocs, None) {
      var l :| l in db.lops && db.lops[l].maHocKy == lop.maHocKy && Some(l) != None && CoDangKy(db, sv, l) &&
               TrungNhau(lop.lichHocs, db.lops[l].lichHocs);
      var d :| d in db.dangKys && db.dangKys[d] == DangKyLopHoc(sv, l);
      assert !HocCung(lop, db.lops[db.dangKys[d].maLopHocKy]);
    }
  }

  lemma AddCan(dm: DanhMuc, db: Db, sv: nat, ma: nat)
    requires ToanVen(dm, db) && ToanVen(dm, ThemDangKy(db, sv, ma)) && ma in db.lops
    requires GhiDanhDung(dm, ThemDangKy(db, sv, ma))
    ensures ConCho(db, sv, ma)
  {
    var r, k := ThemDangKy(db, sv, ma), db.dangKyKe;
    SiSoThem(db, sv, ma, ma);
    assert SiSo(r, ma) <= r.lops[ma].siSoToiDa;
    forall d | d in db.dangKys && db.dangKys[d].maSinhVien == sv
      ensures HocCung(db.lops[ma], db.lops[db.dangKys[d].maLopHocKy])
    {
      assert d in r.dangKys && CapDung(r, k, d);
    }
    ConChoTungLop(dm, db, sv, ma);
  }

  /** A registration can be added without breaking enrolment exactly when there is room for it. */
  lemma AddExact(dm: DanhMuc, db: Db, sv: nat, ma: nat)
    requires ToanVen(dm, db) && ToanVen(dm, ThemDangKy(db, sv, ma)) && GhiDanhDung(dm, db) && ma in db.lops
    ensures GhiDanhDung(dm, ThemDangKy(db, sv, ma)) <==> ConCho(db, sv, ma)
  {
    var r, k := ThemDangKy(db, sv, ma), db.dangKyKe;
    assert k !in db.dangKys;
    ConChoTungLop(dm, db, sv, ma);
    forall l ensures SiSo(r, l) == SiSo(db, l) + if l == ma then 1 else 0 { SiSoThem(db, sv, ma, l); }
    if ConCho(db, sv, ma) {
      forall d, e | d in r.dangKys && e in r.dangKys ensures CapDung(r, d, e) {
        if d != k && e != k {
          assert CapDung(db, d, e);
        } else if d != k && db.dangKys[d].maSinhVien == sv {
          HocCungDoiXung(db.lops[ma], db.lops[db.dangKys[d].maLopHocKy]);
        }
      }
    }
    if GhiDanhDung(dm, r) { AddCan(dm, db, sv, ma); }
  }

  lemma RemoveKeeps(dm: DanhMuc, db: Db, d: nat)
    requires ToanVen(dm, db) && GhiDanhDung(dm, db) && d in db.dangKys
    ensures ToanVen(dm, BoDangKy(db, d)) && GhiDanhDung(dm, BoDangKy(db, d))
  {
    var r := BoDangKy(db, d);
    BoToanVen(dm, db, d);
    forall l | l in r.lops ensures SiSo(r, l) <= r.lops[l].siSoToiDa { SiSoBo(db, d, l); }
    forall e, f | e in r.dangKys && f in r.dangKys ensures CapDung(r, e, f) {
      assert CapDung(db, e, f);
    }
  }

  // ---------------------------------------------------------------- the steps

  /** What the moved registration must find in the new class's term. It asks nothing when the term
      stays the same. */
  ghost predicate DoiLopAnToan(db: Db, sv: nat, d: nat, ma: nat)
    requires d in db.dangKys && db.dangKys[d].maLopHocKy in db.lops && ma in db.lops
  {
    var moi := db.lops[ma];
    moi.maHocKy != db.lops[db.dangKys[d].maLopHocKy].maHocKy ==>
      DangKyMon(db, sv, moi.maHocKy, moi.maMonHoc) == {} &&
      !TrungLichSinhVien(db, sv, moi.maHocKy, moi.lichHocs, None)
  }

  /** What an update must leave to the students enrolled: seats, and no overlap with their other classes. */
  ghost predicate UpdateAnToan(db: Db, id: nat, yc: YeuCauLop)
    requires id in db.lops
  {
    && SiSo(db, id) <= yc.siSoToiDa
    && forall d, e :: d in db.dangKys && e in db.dangKys && db.dangKys[d].maLopHocKy == id &&
                      db.dangKys[e].maSinhVien == db.dangKys[d].maSinhVien && db.dangKys[e].maLopHocKy != id &&
                      db.dangKys[e].maLopHocKy in db.lops &&
                      db.lops[db.dangKys[e].maLopHocKy].maHocKy == db.lops[id].maHocKy ==>
                        !TrungNhau(yc.lichHocs, db.lops[db.dangKys[e].maLopHocKy].lichHocs)
  }

  /** The only two steps that need looking at before they run. */
  ghost predicate BuocAnToan(dm: DanhMuc, db: Db, lenh: Lenh)
    requires ToanVen(dm, db)
  {
    match lenh
    case LDoiLop(sv, d, ma, now) => DoiLop(dm, db, sv, d, ma, now).1 == ThanhCong ==> DoiLopAnToan(db, sv, d, ma)
    case LUpdate(quyen, id, yc) => Update(dm, db, quyen, id, yc).1 == ThanhCong ==> UpdateAnToan(db, id, yc)
    case _ => true
  }

  lemma QuaLaConCho(dm: DanhMuc, db: Db, sv: nat, ma: nat, now: int)
    requires ToanVen(dm, db) && KiemTraDangKy(dm, db, sv, ma, now) == ThanhCong
    ensures ma in db.lops && ConCho(db, sv, ma)
  {
  }

  lemma DangKyGiu(dm: DanhMuc, db: Db, sv: nat, ma: nat, now: int)
    requires ToanVen(dm, db) && GhiDanhDung(dm, db)
    ensures ToanVen(dm, DangKy(dm, db, sv, ma, now).0) && GhiDanhDung(dm, DangKy(dm, db, sv, ma, now).0)
  {
    DangKyToanVen(dm, db, sv, ma, now);
    var r := DangKy(dm, db, sv, ma, now).0;
    if KiemTraDangKy(dm, db, sv, ma, now) == ThanhCong {
      QuaLaConCho(dm, db, sv, ma, now);
      AddExact(dm, db, sv, ma);
      assert r == ThemDangKy(db, sv, ma);
    } else {
      assert r == db;
    }
  }

  lemma MonSauBo(dm: DanhMuc, db: Db, sv: nat, d: nat, hk: nat, mon: nat)
    requires ToanVen(dm, db) && GhiDanhDung(dm, db) && d in db.dangKys && db.dangKys[d].maSinhVien == sv
    requires mon == db.lops[db.dangKys[d].maLopHocKy].maMonHoc
    ensures DangKyMon(BoDangKy(db, d), sv, hk, mon) ==
            if hk == db.lops[db.dangKys[d].maLopHocKy].maHocKy then {} else DangKyMon(db, sv, hk, mon)
  {
    var truoc, sau := DangKyMon(db, sv, hk, mon), DangKyMon(BoDangKy(db, d), sv, hk, mon);
    assert sau == truoc - {d};
    if hk == db.lops[db.dangKys[d].maLopHocKy].maHocKy {
      forall e | e in truoc ensures e == d {
        assert CapDung(db, d, e);
      }
      assert sau == {};
    } else {
      assert d !in truoc;
    }
  }

  lemma LichSauBo(dm: DanhMuc, db: Db, sv: nat, d: nat, hk: nat, lich: seq<Buoi>)
    requires ToanVen(dm, db) && d in db.dangKys && db.dangKys[d].maSinhVien == sv
    ensures TrungLichSinhVien(BoDangKy(db, d), sv, hk, lich, None) <==>
            TrungLichSinhVien(db, sv, hk, lich, Some(db.dangKys[d].maLopHocKy))
    ensures hk != db.lops[db.dangKys[d].maLopHocKy].maHocKy ==>
              (TrungLichSinhVien(db, sv, hk, lich, Some(db.dangKys[d].maLopHocKy)) <==>
               TrungLichSinhVien(db, sv, hk, lich, None))
  {
    forall l ensures CoDangKy(BoDangKy(db, d), sv, l) <==> CoDangKy(db, sv, l) && l != db.dangKys[d].maLopHocKy {
      CoDangKySauBo(dm, db, sv, d, l);
    }
  }

  /** After its own old registration is taken out, the move finds room exactly in the stated case. */
  lemma DoiLopConCho(dm: DanhMuc, db: Db, sv: nat, d: nat, ma: nat, now: int)
    requires ToanVen(dm, db) && GhiDanhDung(dm, db)
    requires KiemTraDoiLop(dm, db, sv, d, ma, now) == ThanhCong
    ensures ConCho(BoDangKy(db, d), sv, ma) <==> DoiLopAnToan(db, sv, d, ma)
  {
    var moi := db.lops[ma];
    SiSoBo(db, d, ma);
    MonSauBo(dm, db, sv, d, moi.maHocKy, moi.maMonHoc);
    LichSauBo(dm, db, sv, d, moi.maHocKy, moi.lichHocs);
  }

  lemma CoDangKySauBo(dm: DanhMuc, db: Db, sv: nat, d: nat, l: nat)
    requires ToanVen(dm, db) && d in db.dangKys && db.dangKys[d].maSinhVien == sv
    ensures CoDangKy(BoDangKy(db, d), sv, l) <==> CoDangKy(db, sv, l) && l != db.dangKys[d].maLopHocKy
  {
    var g := BoDangKy(db, d);
    assert forall e :: e in g.dangKys <==> e in db.dangKys && e != d;
    if CoDangKy(db, sv, l) && l != db.dangKys[d].maLopHocKy {
      var e :| e in db.dangKys && db.dangKys[e] == DangKyLopHoc(sv, l);
      assert e in g.dangKys && g.dangKys[e] == DangKyLopHoc(sv, l);
    }
  }

  /** A successful move keeps enrolment exactly when the class is of the same term, or the new term
      has no class of the course for the student and none that overlaps. */
  lemma MoveExact(dm: DanhMuc, db: Db, sv: nat, d: nat, ma: nat, now: int)
    requires ToanVen(dm, db) && GhiDanhDung(dm, db)
    requires DoiLop(dm, db, sv, d, ma, now).1 == ThanhCong
    ensures ToanVen(dm, DoiLop(dm, db, sv, d, ma, now).0)
    ensures GhiDanhDung(dm, DoiLop(dm, db, sv, d, ma, now).0) <==> DoiLopAnToan(db, sv, d, ma)
  {
    RemoveKeeps(dm, db, d);
    DoiLopToanVen(dm, db, sv, d, ma, now);
    DoiLopConCho(dm, db, sv, d, ma, now);
    AddExact(dm, BoDangKy(db, d), sv, ma);
  }

  lemma LuuLichTrung(dm: DanhMuc, a: seq<Buoi>, b: seq<Buoi>)
    ensures TrungNhau(LuuLich(a), b) <==> TrungNhau(a, b)
  {
    LuuLichGiu(dm.upper, a, b);
  }

  lemma UpdateSiSo(dm: DanhMuc, db: Db, quyen: bool, id: nat, yc: YeuCauLop, l: nat)
    ensures SiSo(Update(dm, db, quyen, id, yc).0, l) == SiSo(db, l)
  {
    assert DangKyCuaLop(Update(dm, db, quyen, id, yc).0, l) == DangKyCuaLop(db, l);
  }

  lemma UpdateDu(dm: DanhMuc, db: Db, quyen: bool, id: nat, yc: YeuCauLop)
    requires ToanVen(dm, db) && GhiDanhDung(dm, db)
    requires Update(dm, db, quyen, id, yc).1 == ThanhCong && UpdateAnToan(db, id, yc)
    requires ToanVen(dm, Update(dm, db, quyen, id, yc).0)
    ensures GhiDanhDung(dm, Update(dm, db, quyen, id, yc).0)
  {
    var r := Update(dm, db, quyen, id, yc).0;
    forall l | l in r.lops ensures SiSo(r, l) <= r.lops[l].siSoToiDa { UpdateSiSo(dm, db, quyen, id, yc, l); }
    forall d, e | d in r.dangKys && e in r.dangKys ensures CapDung(r, d, e) {
      UpdateMotCap(dm, db, quyen, id, yc, d, e);
    }
  }

  lemma UpdateCan(dm: DanhMuc, db: Db, quyen: bool, id: nat, yc: YeuCauLop)
    requires ToanVen(dm, db)
    requires Update(dm, db, quyen, id, yc).1 == ThanhCong
    requires ToanVen(dm, Update(dm, db, quyen, id, yc).0) && GhiDanhDung(dm, Update(dm, db, quyen, id, yc).0)
    ensures UpdateAnToan(db, id, yc)
  {
    var r := Update(dm, db, quyen, id, yc).0;
    UpdateSiSo(dm, db, quyen, id, yc, id);
    assert SiSo(r, id) <= r.lops[id].siSoToiDa;
    forall d, e | d in db.dangKys && e in db.dangKys && db.dangKys[d].maLopHocKy == id &&
                  db.dangKys[e].maSinhVien == db.dangKys[d].maSinhVien && db.dangKys[e].maLopHocKy != id &&
                  db.lops[db.dangKys[e].maLopHocKy].maHocKy == db.lops[id].maHocKy
      ensures !TrungNhau(yc.lichHocs, db.lops[db.dangKys[e].maLopHocKy].lichHocs)
    {
      assert CapDung(r, d, e);
      LuuLichTrung(dm, yc.lichHocs, db.lops[db.dangKys[e].maLopHocKy].lichHocs);
    }
  }

  /** A successful update keeps enrolment exactly when the enrolled students still fit and the new
      sessions miss all their other classes of the term. */
  lemma UpdateExact(dm: DanhMuc, db: Db, quyen: bool, id: nat, yc: YeuCauLop)
    requires ToanVen(dm, db) && GhiDanhDung(dm, db)
    requires Update(dm, db, quyen, id, yc).1 == ThanhCong
    ensures ToanVen(dm, Update(dm, db, quyen, id, yc).0)
    ensures GhiDanhDung(dm, Update(dm, db, quyen, id, yc).0) <==> UpdateAnToan(db, id, yc)
  {
    UpdateToanVen(dm, db, quyen, id, yc);
    if UpdateAnToan(db, id, yc) { UpdateDu(dm, db, quyen, id, yc); }
    if GhiDanhDung(dm, Update(dm, db, quyen, id, yc).0) { UpdateCan(dm, db, quyen, id, yc); }
  }

  lemma UpdateMotCap(dm: DanhMuc, db: Db, quyen: bool, id: nat, yc: YeuCauLop, d: nat, e: nat)
    requires ToanVen(dm, db) && GhiDanhDung(dm, db) && id in db.lops && UpdateAnToan(db, id, yc)
    requires Update(dm, db, quyen, id, yc).1 == ThanhCong
    requires d in db.dangKys && e in db.dangKys
    ensures CapDung(Update(dm, db, quyen, id, yc).0, d, e)
  {
    var ld, le := db.dangKys[d].maLopHocKy, db.dangKys[e].maLopHocKy;
    assert CapDung(db, d, e);
    assert db.dangKys[d].maSinhVien == db.dangKys[e].maSinhVien && ld == le ==> db.dangKys[d] == db.dangKys[e];
    LuuLichTrung(dm, yc.lichHocs, db.lops[le].lichHocs);
    LuuLichTrung(dm, yc.lichHocs, db.lops[ld].lichHocs);
    TrungNhauSymmetric(LuuLich(yc.lichHocs), db.lops[ld].lichHocs);
  }

  lemma CreateGiu(dm: DanhMuc, db: Db, quyen: bool, mon: nat, hk: nat, yc: YeuCauLop)
    requires ToanVen(dm, db) && GhiDanhDung(dm, db)
    ensures var r := Create(dm, db, quyen, mon, hk, yc).0; ToanVen(dm, r) && GhiDanhDung(dm, r)
  {
    CreateToanVen(dm, db, quyen, mon, hk, yc);
    if Create(dm, db, quyen, mon, hk, yc).1 == ThanhCong {
      ThemLopGiu(dm, db, Create(dm, db, quyen, mon, hk, yc).0, db.lopKe, LopMoi(db.lopKe, mon, hk, yc));
    }
  }

  lemma ThemLopGiu(dm: DanhMuc, db: Db, r: Db, k: nat, lop: LopHoc)
    requires ToanVen(dm, db) && ToanVen(dm, r) && GhiDanhDung(dm, db)
    requires k !in db.lops && lop.siSoToiDa >= 0 && r.lops == db.lops[k := lop] && r.dangKys == db.dangKys
    ensures GhiDanhDung(dm, r)
  {
    forall l | l in r.lops ensures SiSo(r, l) <= r.lops[l].siSoToiDa {
      assert DangKyCuaLop(r, l) == DangKyCuaLop(db, l);
      if l == k { assert DangKyCuaLop(db, l) == {}; }
    }
    forall d, e | d in r.dangKys && e in r.dangKys ensures CapDung(r, d, e) {
      assert CapDung(db, d, e);
    }
  }

  /** Removing a class and a set of registrations that contains all of the class's own. */
  lemma BoLopGiu(dm: DanhMuc, db: Db, r: Db)
    requires ToanVen(dm, db) && GhiDanhDung(dm, db) && ToanVen(dm, r)
    requires forall d :: d in r.dangKys ==> d in db.dangKys && r.dangKys[d] == db.dangKys[d]
    requires forall l :: l in r.lops ==> l in db.lops && r.lops[l] == db.lops[l]
    ensures GhiDanhDung(dm, r)
  {
    forall l | l in r.lops ensures SiSo(r, l) <= r.lops[l].siSoToiDa {
      TapCon(DangKyCuaLop(r, l), DangKyCuaLop(db, l));
    }
    forall d, e | d in r.dangKys && e in r.dangKys ensures CapDung(r, d, e) {
      assert CapDung(db, d, e);
    }
  }

  lemma {:induction false} TapCon(a: set<nat>, b: set<nat>)
    requires a <= b
    ensures |a| <= |b|
  {
    if a != {} {
      var x: nat :| x in a;
      TapCon(a - {x}, b - {x});
    }
  }

  lemma HuyDangKyGiu(dm: DanhMuc, db: Db, sv: nat, d: nat, now: int)
    requires ToanVen(dm, db) && GhiDanhDung(dm, db)
    ensures var r := HuyDangKy(dm, db, sv, d, now).0; ToanVen(dm, r) && GhiDanhDung(dm, r)
  {
    if d in db.dangKys { RemoveKeeps(dm, db, d); }
  }

  lemma DeleteGiu(dm: DanhMuc, db: Db, quyen: bool, id: nat)
    requires ToanVen(dm, db) && GhiDanhDung(dm, db)
    ensures var r := Delete(db, quyen, id).0; ToanVen(dm, r) && GhiDanhDung(dm, r)
  {
    DeleteToanVen(dm, db, quyen, id);
    BoLopGiu(dm, db, Delete(db, quyen, id).0);
  }

  lemma HuyLopGiu(dm: DanhMuc, db: Db, quyen: bool, id: nat)
    requires ToanVen(dm, db) && GhiDanhDung(dm, db)
    ensures var r := HuyLop(db, quyen, id).0; ToanVen(dm, r) && GhiDanhDung(dm, r)
  {
    HuyLopToanVen(dm, db, quyen, id);
    BoLopGiu(dm, db, HuyLop(db, quyen, id).0);
  }

  lemma DoiLopChinhXac(dm: DanhMuc, db: Db, sv: nat, d: nat, ma: nat, now: int)
    requires ToanVen(dm, db) && GhiDanhDung(dm, db)
    ensures ToanVen(dm, DoiLop(dm, db, sv, d, ma, now).0)
    ensures GhiDanhDung(dm, DoiLop(dm, db, sv, d, ma, now).0) <==>
            (DoiLop(dm, db, sv, d, ma, now).1 == ThanhCong ==> DoiLopAnToan(db, sv, d, ma))
  {
    if DoiLop(dm, db, sv, d, ma, now).1 == ThanhCong { MoveExact(dm, db, sv, d, ma, now); }
  }

  lemma UpdateChinhXac(dm: DanhMuc, db: Db, quyen: bool, id: nat, yc: YeuCauLop)
    requires ToanVen(dm, db) && GhiDanhDung(dm, db)
    ensures ToanVen(dm, Update(dm, db, quyen, id, yc).0)
    ensures GhiDanhDung(dm, Update(dm, db, quyen, id, yc).0) <==>
            (Update(dm, db, quyen, id, yc).1 == ThanhCong ==> UpdateAnToan(db, id, yc))
  {
    if Update(dm, db, quyen, id, yc).1 == ThanhCong { UpdateExact(dm, db, quyen, id, yc); }
  }

  /** From a correct state, one step of any kind leads to a correct state exactly when it is safe:
      only a move across terms or an update of a class with students can break enrolment. */
  lemma StepExact(dm: DanhMuc, db: Db, lenh: Lenh)
    requires ToanVen(dm, db) && GhiDanhDung(dm, db)
    ensures ToanVen(dm, Buoc(dm, db, lenh).0)
    ensures GhiDanhDung(dm, Buoc(dm, db, lenh).0) <==> BuocAnToan(dm, db, lenh)
  {
    match lenh
    case LDangKy(sv, ma, now) => DangKyGiu(dm, db, sv, ma, now);
    case LHuyDangKy(sv, d, now) => HuyDangKyGiu(dm, db, sv, d, now);
    case LDoiLop(sv, d, ma, now) => DoiLopChinhXac(dm, db, sv, d, ma, now);
    case LCreate(quyen, mon, hk, yc) => CreateGiu(dm, db, quyen, mon, hk, yc);
    case LUpdate(quyen, id, yc) => UpdateChinhXac(dm, db, quyen, id, yc);
    case LDelete(quyen, id) => DeleteGiu(dm, db, quyen, id);
    case LHuyLop(quyen, id) => HuyLopGiu(dm, db, quyen, id);
    case LNhapDiem(quyen, d, x, y) => NhapDiemGiu(dm, db, quyen, d, x, y);
  }

  /** Enrolment is about classes and registrations only. */
  lemma ChiNhinDangKy(dm: DanhMuc, db: Db, r: Db)
    requires ToanVen(dm, db) && ToanVen(dm, r) && GhiDanhDung(dm, db)
    requires r.lops == db.lops && r.dangKys == db.dangKys
    ensures GhiDanhDung(dm, r)
  {
    forall l | l in r.lops ensures SiSo(r, l) <= r.lops[l].siSoToiDa {
      assert DangKyCuaLop(r, l) == DangKyCuaLop(db, l);
    }
    forall e, f | e in r.dangKys && f in r.dangKys ensures CapDung(r, e, f) {
      assert CapDung(db, e, f);
    }
  }

  lemma NhapDiemGiu(dm: DanhMuc, db: Db, quyen: bool, d: nat, x: Option<real>, y: Option<real>)
    requires ToanVen(dm, db) && GhiDanhDung(dm, db)
    ensures var r := NhapDiem.NhapDiem(dm, db, quyen, d, x, y).0; ToanVen(dm, r) && GhiDanhDung(dm, r)
  {
    NhapDiemToanVen(dm, db, quyen, d, x, y);
    NhapDiemChiDoiDiem(dm, db, quyen, d, x, y);
    ChiNhinDangKy(dm, db, NhapDiem.NhapDiem(dm, db, quyen, d, x, y).0);
  }

  ghost predicate ChayAnToan(dm: DanhMuc, db: Db, lenhs: seq<Lenh>)
    requires ToanVen(dm, db)
    decreases |lenhs|
  {
    if lenhs == [] then true
    else
      StepKeepsIntegrity(dm, db, lenhs[0]);
      BuocAnToan(dm, db, lenhs[0]) && ChayAnToan(dm, Buoc(dm, db, lenhs[0]).0, lenhs[1..])
  }

  /** Over every run whose moves and updates are safe, enrolment stays correct. */
  lemma {:induction false} EnrolmentSafe(dm: DanhMuc, db: Db, lenhs: seq<Lenh>)
    requires ToanVen(dm, db) && GhiDanhDung(dm, db) && ChayAnToan(dm, db, lenhs)
    ensures GhiDanhDung(dm, Chay(dm, db, lenhs))
    decreases |lenhs|
  {
    if lenhs != [] {
      StepExact(dm, db, lenhs[0]);
      EnrolmentSafe(dm, Buoc(dm, db, lenhs[0]).0, lenhs[1..]);
    }
  }

  // ---------------------------------------------------------------- moves and undo

  ghost function DangKyCuaSv(db: Db, sv: nat): set<nat> {
    set d | d in db.dangKys && db.dangKys[d].maSinhVien == sv
  }

  /** Taking registration d out and putting one of class ma in. */
  lemma ThayMotDangKy(db: Db, sv: nat, d: nat, ma: nat)
    requires d in db.dangKys && db.dangKyKe !in db.dangKys && db.dangKys[d].maSinhVien == sv
    ensures var r := ThemDangKy(BoDangKy(db, d), sv, ma); var cu := db.dangKys[d].maLopHocKy;
            && (forall l: nat :: SiSo(r, l) == SiSo(db, l) - (if l == cu then 1 else 0) + (if l == ma then 1 else 0))
            && |DangKyCuaSv(r, sv)| == |DangKyCuaSv(db, sv)|
  {
    var g, r, k := BoDangKy(db, d), ThemDangKy(BoDangKy(db, d), sv, ma), db.dangKyKe;
    forall l: nat
      ensures SiSo(r, l) == SiSo(db, l) - (if l == db.dangKys[d].maLopHocKy then 1 else 0) + (if l == ma then 1 else 0)
    {
      SiSoBo(db, d, l);
      SiSoThem(g, sv, ma, l);
    }
    var truoc := DangKyCuaSv(db, sv);
    assert DangKyCuaSv(r, sv) == truoc - {d} + {k};
    assert d in truoc && k !in truoc;
  }

  /** A successful move takes one seat from the old class and one in the new, changes no other class,
      and keeps the number of the student's registrations. */
  lemma MoveConservesSeats(dm: DanhMuc, db: Db, sv: nat, d: nat, ma: nat, now: int)
    requires ToanVen(dm, db) && DoiLop(dm, db, sv, d, ma, now).1 == ThanhCong
    ensures var r := DoiLop(dm, db, sv, d, ma, now).0; var cu := db.dangKys[d].maLopHocKy;
            && cu != ma && SiSo(r, cu) == SiSo(db, cu) - 1 && SiSo(r, ma) == SiSo(db, ma) + 1
            && (forall l: nat :: l != cu && l != ma ==> SiSo(r, l) == SiSo(db, l))
            && |DangKyCuaSv(r, sv)| == |DangKyCuaSv(db, sv)|
  {
    assert db.dangKyKe !in db.dangKys;
    ThayMotDangKy(db, sv, d, ma);
  }

  /** It replaces the one registration, and leaves every other registration and grade as it was. */
  lemma MoveTouchesOnlyItself(dm: DanhMuc, db: Db, sv: nat, d: nat, ma: nat, now: int)
    requires ToanVen(dm, db) && DoiLop(dm, db, sv, d, ma, now).1 == ThanhCong
    ensures var r := DoiLop(dm, db, sv, d, ma, now).0;
            && r.dangKys == (db.dangKys - {d})[db.dangKyKe := DangKyLopHoc(sv, ma)]
            && r.diems == db.diems - {d}
            && r.lops == db.lops && r.tichLuy == db.tichLuy
            && db.dangKys[d].maSinhVien == sv && db.dangKyKe !in db.dangKys
            && !CoDangKy(r, sv, db.dangKys[d].maLopHocKy)
  {
    var r := DoiLop(dm, db, sv, d, ma, now).0;
    var cu := db.dangKys[d].maLopHocKy;
    BoToanVen(dm, db, d);
    CoDangKySauBo(dm, db, sv, d, cu);
    forall e | e in r.dangKys ensures r.dangKys[e] != DangKyLopHoc(sv, cu) {
      assert e != db.dangKyKe ==> e in BoDangKy(db, d).dangKys;
    }
  }

  lemma LopCuaKhacGiu(db: Db, sv: nat, d: nat, ma: nat, khac: nat, l: nat)
    requires d in db.dangKys && db.dangKys[d].maSinhVien == sv && db.dangKyKe !in db.dangKys && khac != sv
    ensures CoDangKy(ThemDangKy(BoDangKy(db, d), sv, ma), khac, l) <==> CoDangKy(db, khac, l)
  {
    var r := ThemDangKy(BoDangKy(db, d), sv, ma);
    if CoDangKy(r, khac, l) {
      var e :| e in r.dangKys && r.dangKys[e] == DangKyLopHoc(khac, l);
      assert e in db.dangKys && db.dangKys[e] == DangKyLopHoc(khac, l);
    }
    if CoDangKy(db, khac, l) {
      var e :| e in db.dangKys && db.dangKys[e] == DangKyLopHoc(khac, l);
      assert e in r.dangKys && r.dangKys[e] == DangKyLopHoc(khac, l);
    }
  }

  lemma DiemCuaKhacGiu(db: Db, sv: nat, d: nat, ma: nat, khac: nat, mon: nat)
    requires d in db.dangKys && db.dangKys[d].maSinhVien == sv && khac != sv
    requires db.dangKyKe !in db.dangKys && db.dangKyKe !in db.diems
    ensures MaxZ(ThemDangKy(BoDangKy(db, d), sv, ma), khac, mon) == MaxZ(db, khac, mon)
  {
    var r := ThemDangKy(BoDangKy(db, d), sv, ma);
    assert forall e: nat :: e != d && e != db.dangKyKe ==> (DaCham(r, e) <==> DaCham(db, e));
    assert CacZ(r, khac, mon) == CacZ(db, khac, mon);
  }

  /** What other students' requests are decided on: their classes and their best grades stay. */
  lemma MoveLeavesOthersAlone(dm: DanhMuc, db: Db, sv: nat, d: nat, ma: nat, now: int, khac: nat, mon: nat)
    requires ToanVen(dm, db) && DoiLop(dm, db, sv, d, ma, now).1 == ThanhCong && khac != sv
    ensures var r := DoiLop(dm, db, sv, d, ma, now).0;
            && MaxZ(r, khac, mon) == MaxZ(db, khac, mon)
            && (forall l: nat :: CoDangKy(r, khac, l) <==> CoDangKy(db, khac, l))
  {
    assert db.dangKyKe !in db.dangKys;
    DiemCuaKhacGiu(db, sv, d, ma, khac, mon);
    forall l: nat ensures CoDangKy(DoiLop(dm, db, sv, d, ma, now).0, khac, l) <==> CoDangKy(db, khac, l) {
      LopCuaKhacGiu(db, sv, d, ma, khac, l);
    }
  }

  lemma CoDangKySauThem(db: Db, sv: nat, ma: nat, l: nat)
    requires db.dangKyKe !in db.dangKys
    ensures CoDangKy(ThemDangKy(db, sv, ma), sv, l) <==> l == ma || CoDangKy(db, sv, l)
  {
    var r := ThemDangKy(db, sv, ma);
    assert r.dangKys[db.dangKyKe] == DangKyLopHoc(sv, ma);
    if CoDangKy(db, sv, l) {
      var e :| e in db.dangKys && db.dangKys[e] == DangKyLopHoc(sv, l);
      assert e in r.dangKys && r.dangKys[e] == DangKyLopHoc(sv, l);
    }
  }

  lemma HocCungKy(dm: DanhMuc, db: Db, sv: nat, d: nat, l: nat)
    requires ToanVen(dm, db) && GhiDanhDung(dm, db) && d in db.dangKys && db.dangKys[d].maSinhVien == sv
    requires CoDangKy(db, sv, l) && l != db.dangKys[d].maLopHocKy
    ensures l in db.lops && HocCung(db.lops[db.dangKys[d].maLopHocKy], db.lops[l])
  {
    var e :| e in db.dangKys && db.dangKys[e] == DangKyLopHoc(sv, l);
    assert CapDung(db, d, e);
  }

  /** The old class against the student's classes once the move is made. */
  lemma LichSauDoi(dm: DanhMuc, db: Db, sv: nat, d: nat, ma: nat)
    requires ToanVen(dm, db) && GhiDanhDung(dm, db) && d in db.dangKys && db.dangKys[d].maSinhVien == sv
    requires ma in db.lops && !CoDangKy(db, sv, ma)
    ensures var r, cu := ThemDangKy(BoDangKy(db, d), sv, ma), db.lops[db.dangKys[d].maLopHocKy];
            TrungLichSinhVien(r, sv, db.lops[ma].maHocKy, cu.lichHocs, Some(ma)) <==>
            db.lops[ma].maHocKy != cu.maHocKy && TrungLichSinhVien(db, sv, db.lops[ma].maHocKy, cu.lichHocs, None)
  {
    var g, maCu, hk := BoDangKy(db, d), db.dangKys[d].maLopHocKy, db.lops[ma].maHocKy;
    var r := ThemDangKy(g, sv, ma);
    forall l ensures CoDangKy(r, sv, l) <==> l == ma || (CoDangKy(db, sv, l) && l != maCu) {
      CoDangKySauBo(dm, db, sv, d, l);
      CoDangKySauThem(g, sv, ma, l);
    }
    if hk == db.lops[maCu].maHocKy {
      forall l | CoDangKy(db, sv, l) && l != maCu && l in db.lops && db.lops[l].maHocKy == hk
        ensures !TrungNhau(db.lops[maCu].lichHocs, db.lops[l].lichHocs)
      {
        HocCungKy(dm, db, sv, d, l);
      }
    }
  }

  /** What a successful move has passed. */
  lemma DoiLopDaQua(dm: DanhMuc, db: Db, sv: nat, d: nat, ma: nat, now: int)
    requires ToanVen(dm, db) && DoiLop(dm, db, sv, d, ma, now).1 == ThanhCong
    ensures sv in dm.sinhViens && d in db.dangKys && db.dangKys[d].maSinhVien == sv && ma in db.lops
    ensures var maCu := db.dangKys[d].maLopHocKy;
            && maCu in db.lops && maCu != ma && db.lops[maCu].maMonHoc == db.lops[ma].maMonHoc
            && DangMoDangKy(dm, dm.sinhViens[sv], db.lops[maCu].maHocKy, now) && !CoDangKy(db, sv, ma)
    ensures DoiLop(dm, db, sv, d, ma, now).0 == ThemDangKy(BoDangKy(db, d), sv, ma)
  {
  }

  /** The guards of the reverse move that the first move has already passed. */
  lemma KiemTraDoiLai(dm: DanhMuc, r: Db, sv: nat, k: nat, ma: nat, maCu: nat, now: int)
    requires ToanVen(dm, r) && sv in dm.sinhViens && k in r.dangKys && r.dangKys[k] == DangKyLopHoc(sv, ma)
    requires maCu in r.lops && maCu != ma && r.lops[maCu].maMonHoc == r.lops[ma].maMonHoc
    requires SiSo(r, maCu) < r.lops[maCu].siSoToiDa && !CoDangKy(r, sv, maCu)
    ensures KiemTraDoiLop(dm, r, sv, k, maCu, now) == ThanhCong <==>
            DangMoDangKy(dm, dm.sinhViens[sv], r.lops[ma].maHocKy, now) &&
            !TrungLichSinhVien(r, sv, r.lops[ma].maHocKy, r.lops[maCu].lichHocs, Some(ma))
  {
  }

  lemma BoVuaThem(db: Db, d: nat, sv: nat, ma: nat)
    requires db.dangKyKe !in db.dangKys && db.dangKyKe !in db.diems && d in db.dangKys
    ensures BoDangKy(ThemDangKy(BoDangKy(db, d), sv, ma), db.dangKyKe) ==
            BoDangKy(db, d).(dangKyKe := db.dangKyKe + 1)
  {
    var g := BoDangKy(db, d);
    var r := ThemDangKy(g, sv, ma);
    assert r.dangKys - {db.dangKyKe} == g.dangKys && r.diems - {db.dangKyKe} == g.diems;
  }

  /** Moving back. In an enrolment that is in order the reverse move, at the same moment, succeeds exactly
      when the two classes are of one term, or the new class's term is open and none of the student's
      classes there overlaps the old class. */
  lemma MoveBackExact(dm: DanhMuc, db: Db, sv: nat, d: nat, ma: nat, now: int)
    requires ToanVen(dm, db) && GhiDanhDung(dm, db) && DoiLop(dm, db, sv, d, ma, now).1 == ThanhCong
    ensures ToanVen(dm, DoiLop(dm, db, sv, d, ma, now).0)
    ensures var r, maCu := DoiLop(dm, db, sv, d, ma, now).0, db.dangKys[d].maLopHocKy;
            DoiLop(dm, r, sv, db.dangKyKe, maCu, now).1 == ThanhCong <==>
            db.lops[maCu].maHocKy == db.lops[ma].maHocKy ||
            (DangMoDangKy(dm, dm.sinhViens[sv], db.lops[ma].maHocKy, now) &&
             !TrungLichSinhVien(db, sv, db.lops[ma].maHocKy, db.lops[maCu].lichHocs, None))
  {
    DoiLopDaQua(dm, db, sv, d, ma, now);
    var r, maCu := ThemDangKy(BoDangKy(db, d), sv, ma), db.dangKys[d].maLopHocKy;
    DoiLopToanVen(dm, db, sv, d, ma, now);
    MoveTouchesOnlyItself(dm, db, sv, d, ma, now);
    MoveConservesSeats(dm, db, sv, d, ma, now);
    assert SiSo(db, maCu) <= db.lops[maCu].siSoToiDa;
    KiemTraDoiLai(dm, r, sv, db.dangKyKe, ma, maCu, now);
    LichSauDoi(dm, db, sv, d, ma);
  }

  /** When it succeeds, everything is as before but for the registration's key and its grade, which
      stays lost. */
  lemma MoveBackRestores(dm: DanhMuc, db: Db, sv: nat, d: nat, ma: nat, now: int)
    requires ToanVen(dm, db) && DoiLop(dm, db, sv, d, ma, now).1 == ThanhCong
    requires var r := DoiLop(dm, db, sv, d, ma, now).0;
             ToanVen(dm, r) && DoiLop(dm, r, sv, db.dangKyKe, db.dangKys[d].maLopHocKy, now).1 == ThanhCong
    ensures DoiLop(dm, DoiLop(dm, db, sv, d, ma, now).0, sv, db.dangKyKe, db.dangKys[d].maLopHocKy, now).0 ==
            ThemDangKy(BoDangKy(db, d).(dangKyKe := db.dangKyKe + 1), sv, db.dangKys[d].maLopHocKy)
  {
    DoiLopDaQua(dm, db, sv, d, ma, now);
    var r := ThemDangKy(BoDangKy(db, d), sv, ma);
    DoiLopDaQua(dm, r, sv, db.dangKyKe, db.dangKys[d].maLopHocKy, now);
    assert db.dangKyKe !in db.dangKys && db.dangKyKe !in db.diems;
    BoVuaThem(db, d, sv, ma);
  }

  /** Cancelling right after registering restores every table; only the key generator has moved. */
  lemma CancelUndoesRegister(dm: DanhMuc, db: Db, sv: nat, ma: nat, now: int)
    requires ToanVen(dm, db) && DangKy(dm, db, sv, ma, now).1 == ThanhCong
    ensures var r := DangKy(dm, db, sv, ma, now).0;
            && ToanVen(dm, r)
            && HuyDangKy(dm, r, sv, db.dangKyKe, now) == (db.(dangKyKe := db.dangKyKe + 1), ThanhCong)
  {
    var r := DangKy(dm, db, sv, ma, now).0;
    DangKyToanVen(dm, db, sv, ma, now);
    assert db.dangKyKe !in db.dangKys && db.dangKyKe !in db.diems;
    assert r.dangKys - {db.dangKyKe} == db.dangKys;
    assert r.diems - {db.dangKyKe} == db.diems;
  }
}
