/** What the suggestion reads off the tables and the text of the request: the classes on offer, those kept
    fixed, the state of each course, the electives mentioned, and those to fill with. */
module GoiYBang {
  import opened Collections
  import opened Entities
  import opened XepLich
  import opened TuChon
  import opened CoSoDuLieu
  import opened ChuongTrinh
  import opened DangKyNghia
  import opened GoiYDanhSach
  import opened GoiYAnToan

  // ---------------------------------------------------------------- classes

  /** Class i is of the course and term and has a free seat. */
  ghost predicate MoDuoc(db: Db, hk: nat, mon: nat, i: nat) {
    i in db.lops && db.lops[i].maHocKy == hk && db.lops[i].maMonHoc == mon && ConGhe(db, i)
  }

  /** Class i, with row l, is such a class. */
  ghost predicate LaLopMo(db: Db, hk: nat, mon: nat, i: nat, l: LopHoc) {
    MoDuoc(db, hk, mon, i) && db.lops[i] == l
  }

  lemma {:induction false} LopConChoNghia(db: Db, hk: nat, mon: nat, ids: seq<nat>, l: LopHoc)
    ensures l in LopConCho(db, hk, mon, ids) <==> exists i: nat :: i in ids && LaLopMo(db, hk, mon, i, l)
  {
    if ids != [] {
      LopConChoNghia(db, hk, mon, ids[1..], l);
      var x := ids[0];
      if x in db.lops { ConGheNghia(db, x); }
      assert forall i: nat :: i in ids <==> i == x || i in ids[1..];
      assert x in ids && (LaLopMo(db, hk, mon, x, l) ==> MoDuoc(db, hk, mon, x));
      var dau := if MoDuoc(db, hk, mon, x) then [db.lops[x]] else [];
      assert LopConCho(db, hk, mon, ids) == dau + LopConCho(db, hk, mon, ids[1..]);
      assert l in dau <==> LaLopMo(db, hk, mon, x, l);
    }
  }

  ghost predicate MaTang(ls: seq<LopHoc>) {
    forall a, b :: 0 <= a < b < |ls| ==> ls[a].maLopHocKy < ls[b].maLopHocKy
  }

  lemma {:induction false} LopConChoTang(db: Db, hk: nat, mon: nat, ids: seq<nat>)
    requires Ascending(ids) && forall i :: i in db.lops ==> db.lops[i].maLopHocKy == i
    ensures MaTang(LopConCho(db, hk, mon, ids))
  {
    if ids != [] {
      var con, x := LopConCho(db, hk, mon, ids[1..]), ids[0];
      LopConChoTang(db, hk, mon, ids[1..]);
      forall b | 0 <= b < |con| ensures x < con[b].maLopHocKy {
        assert con[b] in con;
        LopConChoNghia(db, hk, mon, ids[1..], con[b]);
        var i: nat :| i in ids[1..] && LaLopMo(db, hk, mon, i, con[b]);
        assert i in ids && i != x;
      }
    }
  }

  /** On offer under a course are exactly its classes of the term with a free seat, in key order; a course
      without such a class is not listed. */
  lemma OfferedExact(dm: DanhMuc, db: Db, hk: nat, m: nat)
    requires ToanVen(dm, db)
    ensures m in LopTheoMonCua(db, hk) <==> exists i: nat :: MoDuoc(db, hk, m, i)
    ensures m in LopTheoMonCua(db, hk) ==> LaDanhSachMo(db, hk, m, LopTheoMonCua(db, hk)[m])
  {
    MonConChoNghia(db, hk, m);
    var ids := SortedKeys(db.lops.Keys);
    CaDanhSach(dm, db, hk, m, ids, LopConCho(db, hk, m, ids));
  }

  ghost predicate CoLopMo(db: Db, hk: nat, m: nat, l: LopHoc) { exists i: nat :: LaLopMo(db, hk, m, i, l) }

  /** The list of a course's classes on offer, in key order. */
  ghost predicate LaDanhSachMo(db: Db, hk: nat, m: nat, ls: seq<LopHoc>) {
    MaTang(ls) && forall l :: l in ls <==> CoLopMo(db, hk, m, l)
  }

  lemma TrongDanhSachMo(db: Db, hk: nat, m: nat, ids: seq<nat>, l: LopHoc)
    requires forall i: nat :: i in db.lops ==> i in ids
    ensures l in LopConCho(db, hk, m, ids) <==> CoLopMo(db, hk, m, l)
  {
    LopConChoNghia(db, hk, m, ids, l);
    if CoLopMo(db, hk, m, l) {
      var i: nat :| LaLopMo(db, hk, m, i, l);
      assert i in ids && LaLopMo(db, hk, m, i, l);
    }
  }

  lemma CaDanhSach(dm: DanhMuc, db: Db, hk: nat, m: nat, ids: seq<nat>, ls: seq<LopHoc>)
    requires ToanVen(dm, db) && Ascending(ids) && (forall i: nat :: i in db.lops ==> i in ids)
    requires ls == LopConCho(db, hk, m, ids)
    ensures LaDanhSachMo(db, hk, m, ls)
  {
    LopConChoTang(db, hk, m, ids);
    forall l ensures l in ls <==> CoLopMo(db, hk, m, l) { TrongDanhSachMo(db, hk, m, ids, l); }
  }

  lemma MonConChoNghia(db: Db, hk: nat, m: nat)
    ensures m in MonConCho(db, hk) <==> exists i: nat :: MoDuoc(db, hk, m, i)
  {
    forall i | i in db.lops ensures ConGhe(db, i) <==> SiSo(db, i) < db.lops[i].siSoToiDa { ConGheNghia(db, i); }
    if m in MonConCho(db, hk) {
      var i :| i in db.lops && db.lops[i].maHocKy == hk && SiSo(db, i) < db.lops[i].siSoToiDa &&
               db.lops[i].maMonHoc == m;
      assert MoDuoc(db, hk, m, i);
    }
  }

  /** Registration d puts the student into a class of the course in the term. */
  ghost predicate DangHocMon(db: Db, sv: nat, hk: nat, mon: nat, d: nat) {
    && d in db.dangKys && db.dangKys[d].maSinhVien == sv && db.dangKys[d].maLopHocKy in db.lops
    && db.lops[db.dangKys[d].maLopHocKy].maHocKy == hk && db.lops[db.dangKys[d].maLopHocKy].maMonHoc == mon
  }

  /** Kept fixed are exactly the courses in which the student is registered this term, each with a class in
      which the student is. */
  lemma FixedExact(db: Db, sv: nat, hk: nat)
    ensures var cd := CoDinh(db, sv, hk);
            && (forall m: nat :: m in cd <==> exists d: nat :: DangHocMon(db, sv, hk, m, d))
            && forall m: nat :: m in cd ==>
                 exists d: nat :: DangHocMon(db, sv, hk, m, d) && cd[m] == db.lops[db.dangKys[d].maLopHocKy]
  {
    var cd := CoDinh(db, sv, hk);
    forall m: nat ensures m in cd <==> exists d: nat :: DangHocMon(db, sv, hk, m, d) {
      if m in cd {
        var d :| d in db.dangKys && db.dangKys[d].maSinhVien == sv && db.dangKys[d].maLopHocKy in db.lops &&
                 db.lops[db.dangKys[d].maLopHocKy].maHocKy == hk && db.lops[db.dangKys[d].maLopHocKy].maMonHoc == m;
        assert DangHocMon(db, sv, hk, m, d);
      }
    }
    forall m: nat | m in cd
      ensures exists d: nat :: DangHocMon(db, sv, hk, m, d) && cd[m] == db.lops[db.dangKys[d].maLopHocKy]
    {
      DangKyMonTrongLop(db, sv, hk, m);
      var d := Least(DangKyMon(db, sv, hk, m));
      assert d in DangKyMon(db, sv, hk, m);
      assert DangHocMon(db, sv, hk, m, d);
    }
  }

  // ---------------------------------------------------------------- the state of a course

  /** Some class of the term is of the course. */
  ghost predicate CoMoLop(db: Db, hk: nat, mon: nat) {
    exists l :: l in db.lops && db.lops[l].maHocKy == hk && db.lops[l].maMonHoc == mon
  }

  ghost predicate DangHocKy(db: Db, sv: nat, hk: nat, mon: nat) { exists d: nat :: DangHocMon(db, sv, hk, mon, d) }

  /** The student has a grade of 4.00 or more in the prerequisite, if there is one. */
  ghost predicate DuTienQuyet(dm: DanhMuc, db: Db, sv: nat, mon: nat)
    requires mon in dm.monHocs
  {
    dm.monHocs[mon].tienQuyet.Some? ==> DatTu(db, sv, dm.monHocs[mon].tienQuyet.value, 400)
  }

  /** What the row of a course says of the student's record. */
  ghost predicate DungHoSo(db: Db, sv: nat, hk: nat, m: MonHocCt) {
    && (m.daDangKyKyNay <==> DangHocKy(db, sv, hk, m.maMonHoc))
    && (m.trangThai == DangHoc <==> m.daDangKyKyNay)
    && (m.trangThai == DaDat <==> !m.daDangKyKyNay && DatTu(db, sv, m.maMonHoc, 400))
    && (m.trangThai == ChuaHoc <==> !m.daDangKyKyNay && !DatTu(db, sv, m.maMonHoc, 0))
    && (m.caiThien <==> DatTu(db, sv, m.maMonHoc, 400) && !DatTu(db, sv, m.maMonHoc, 700))
    && (forall t: nat :: DatTu(db, sv, m.maMonHoc, t) <==> m.diemZ.Some? && m.diemZ.value >= t)
  }

  lemma HoSoMon(dm: DanhMuc, db: Db, sv: nat, hk: nat, mk: KhungMon)
    requires sv in dm.sinhViens && hk in dm.hocKys && mk.maMonHoc in dm.monHocs
    ensures DungHoSo(db, sv, hk, MonCt(dm, db, sv, hk, mk))
  {
    var mon := mk.maMonHoc;
    MaxZNghia(db, sv, mon, 400);
    MaxZNghia(db, sv, mon, 700);
    MaxZNghia(db, sv, mon, 0);
    forall t: nat ensures DatTu(db, sv, mon, t) <==> MaxZ(db, sv, mon).Some? && MaxZ(db, sv, mon).value >= t {
      MaxZNghia(db, sv, mon, t);
    }
    var cu := DangKyMon(db, sv, hk, mon);
    if cu != {} {
      var d: nat :| d in cu;
      assert DangHocMon(db, sv, hk, mon, d);
    }
    if d: nat :| DangHocMon(db, sv, hk, mon, d) { assert d in cu; }
  }

  /** The advice page's row of a course: what it copies, what it says of the record, and when the course is open: it
      has a class this term, the student is not in it, has no grade of 7.00 or more in it, has the prerequisite,
      and has passed it already or reached its curriculum term, which only required courses must wait for. */
  lemma CourseRowExact(dm: DanhMuc, db: Db, sv: nat, hk: nat, i: nat)
    requires sv in dm.sinhViens && hk in dm.hocKys && KhungDung(dm, KhungCua(dm, dm.sinhViens[sv]))
    requires i < |KhungCua(dm, dm.sinhViens[sv])|
    ensures var mk, m := KhungCua(dm, dm.sinhViens[sv])[i], BuildChuongTrinh(dm, db, sv, hk)[i];
            var mh := dm.monHocs[mk.maMonHoc];
            && m.maMonHoc == mk.maMonHoc && m.kyHoc == mk.kyHoc && m.tenMonHoc == mh.tenMonHoc
            && m.loaiMonHoc == mh.loaiMonHoc && m.soTinChi == mh.soTinChi
            && DungHoSo(db, sv, hk, m)
            && (m.coLop <==> CoMoLop(db, hk, m.maMonHoc))
            && (m.khongDuDieuKien <==> !DuTienQuyet(dm, db, sv, m.maMonHoc))
            && (m.chuaToiKy <==> m.loaiMonHoc == "Bắt buộc" && m.kyHoc > KyTrang(dm, sv, hk) && !m.daDangKyKyNay &&
                                 !DatTu(db, sv, m.maMonHoc, 400))
            && (m.coTheDangKy <==> m.coLop && !m.daDangKyKyNay && !DatTu(db, sv, m.maMonHoc, 700) &&
                                   !m.khongDuDieuKien && !m.chuaToiKy)
  {
    var mk := KhungCua(dm, dm.sinhViens[sv])[i];
    var mon := mk.maMonHoc;
    HoSoMon(dm, db, sv, hk, mk);
    MaxZNghia(db, sv, mon, 400);
    MaxZNghia(db, sv, mon, 700);
    if dm.monHocs[mon].tienQuyet.Some? { MaxZNghia(db, sv, dm.monHocs[mon].tienQuyet.value, 400); }
    assert BuildChuongTrinh(dm, db, sv, hk)[i] == MonCt(dm, db, sv, hk, mk);
  }

  // ---------------------------------------------------------------- electives mentioned in the text

  function TenTai(ct: seq<MonHocCt>, vi: seq<nat>): seq<string> {
    if vi == [] then []
    else TenTai(ct, vi[..|vi| - 1]) + if vi[|vi| - 1] < |ct| then [ct[vi[|vi| - 1]].tenMonHoc] else []
  }

  /** Course i is an elective that the text mentions, matched neither by an unwanted name nor by a wish, nor by
      an elective added before it. */
  ghost predicate DuocNhac(ct: seq<MonHocCt>, c: YeuCau, nhac: string -> bool, vi: seq<nat>, i: nat)
    requires i < |ct|
  {
    var ten := ct[i].tenMonHoc;
    && ct[i].loaiMonHoc == "Tự chọn" && nhac(ten)
    && (forall t :: t in c.monKhongMuonHoc || t in c.monTuChonMuonHoc ==> !c.khop(ten, t))
    && forall j: nat :: j in vi && j < i && j < |ct| ==> !c.khop(ten, ct[j].tenMonHoc)
  }

  ghost predicate NhacDen(ct: seq<MonHocCt>, c: YeuCau, nhac: string -> bool, vi: seq<nat>, k: nat)
    requires k <= |ct|
  {
    Ascending(vi) && forall i: nat :: i in vi <==> i < k && DuocNhac(ct, c, nhac, vi, i)
  }

  lemma {:induction false} TenTaiTrong(ct: seq<MonHocCt>, vi: seq<nat>, ten: string)
    ensures ten in TenTai(ct, vi) <==> exists j: nat :: j in vi && j < |ct| && ct[j].tenMonHoc == ten
  {
    if vi != [] {
      var n := |vi| - 1;
      TenTaiTrong(ct, vi[..n], ten);
      assert forall j: nat :: j in vi <==> j in vi[..n] || j == vi[n];
    }
  }

  lemma KhopThem(ct: seq<MonHocCt>, c: YeuCau, vi: seq<nat>, ten: string)
    ensures KhopMotTrong(c, ten, c.monTuChonMuonHoc + TenTai(ct, vi)) <==>
            (exists t :: t in c.monTuChonMuonHoc && c.khop(ten, t)) ||
            (exists j: nat :: j in vi && j < |ct| && c.khop(ten, ct[j].tenMonHoc))
  {
    forall t ensures t in c.monTuChonMuonHoc + TenTai(ct, vi) <==>
                     t in c.monTuChonMuonHoc || exists j: nat :: j in vi && j < |ct| && ct[j].tenMonHoc == t {
      TenTaiTrong(ct, vi, t);
    }
    if j: nat :| j in vi && j < |ct| && c.khop(ten, ct[j].tenMonHoc) {
      assert ct[j].tenMonHoc in c.monTuChonMuonHoc + TenTai(ct, vi);
    }
  }

  /** One course of the scan. */
  lemma NhacMot(ct: seq<MonHocCt>, c: YeuCau, nhac: string -> bool, vi: seq<nat>, k: nat, r: YeuCau)
    requires k < |ct| && NhacDen(ct, c, nhac, vi, k)
    requires r == c.(monTuChonMuonHoc := c.monTuChonMuonHoc + TenTai(ct, vi))
    ensures DuocNhac(ct, c, nhac, vi, k) <==>
            ct[k].loaiMonHoc == TU_CHON && !KhopMotTrong(r, ct[k].tenMonHoc, r.monTuChonMuonHoc) &&
            !KhopMotTrong(r, ct[k].tenMonHoc, r.monKhongMuonHoc) && nhac(ct[k].tenMonHoc)
  {
    var ten := ct[k].tenMonHoc;
    KhopThem(ct, c, vi, ten);
    assert KhopMotTrong(r, ten, r.monTuChonMuonHoc) <==> KhopMotTrong(c, ten, c.monTuChonMuonHoc + TenTai(ct, vi));
    assert KhopMotTrong(r, ten, r.monKhongMuonHoc) <==> exists t :: t in c.monKhongMuonHoc && c.khop(ten, t);
  }

  /** Whether a course is added does not depend on what is added from it on. */
  lemma NhacTruoc(ct: seq<MonHocCt>, c: YeuCau, nhac: string -> bool, vi: seq<nat>, k: nat, i: nat)
    requires i <= k && i < |ct|
    ensures DuocNhac(ct, c, nhac, vi, i) <==> DuocNhac(ct, c, nhac, vi + [k], i)
  {
    assert forall j: nat :: j in vi + [k] <==> j in vi || j == k;
  }

  lemma NhacThem(ct: seq<MonHocCt>, c: YeuCau, nhac: string -> bool, vi: seq<nat>, k: nat)
    requires k < |ct| && NhacDen(ct, c, nhac, vi, k) && DuocNhac(ct, c, nhac, vi, k)
    ensures NhacDen(ct, c, nhac, vi + [k], k + 1) && TenTai(ct, vi + [k]) == TenTai(ct, vi) + [ct[k].tenMonHoc]
  {
    assert (vi + [k])[..|vi|] == vi;
    assert forall i :: 0 <= i < |vi| ==> vi[i] in vi;
    forall i: nat | i <= k ensures DuocNhac(ct, c, nhac, vi, i) <==> DuocNhac(ct, c, nhac, vi + [k], i) {
      NhacTruoc(ct, c, nhac, vi, k, i);
    }
    assert forall i: nat :: i in vi + [k] <==> i in vi || i == k;
  }

  lemma {:induction false} NhacTu(ct: seq<MonHocCt>, c: YeuCau, nhac: string -> bool, k: nat, vi: seq<nat>, r: YeuCau)
      returns (het: seq<nat>)
    requires k <= |ct| && NhacDen(ct, c, nhac, vi, k)
    requires r == c.(monTuChonMuonHoc := c.monTuChonMuonHoc + TenTai(ct, vi))
    ensures NhacDen(ct, c, nhac, het, |ct|)
    ensures LuoiAnToan(ct[k..], r, nhac) == c.(monTuChonMuonHoc := c.monTuChonMuonHoc + TenTai(ct, het))
    decreases |ct| - k
  {
    if k == |ct| {
      het := vi;
    } else {
      NhacMot(ct, c, nhac, vi, k, r);
      assert ct[k..][1..] == ct[k + 1..];
      if DuocNhac(ct, c, nhac, vi, k) {
        NhacThem(ct, c, nhac, vi, k);
        var sau := r.(monTuChonMuonHoc := r.monTuChonMuonHoc + [ct[k].tenMonHoc]);
        AppendAssociative(c.monTuChonMuonHoc, TenTai(ct, vi), [ct[k].tenMonHoc]);
        het := NhacTu(ct, c, nhac, k + 1, vi + [k], sau);
      } else {
        het := NhacTu(ct, c, nhac, k + 1, vi, r);
      }
    }
  }

  /** The scan of the text adds to the wishes, after those read, the names of exactly the electives that are
      mentioned and that no unwanted name, no wish and no elective added before matches; it changes nothing
      else in the request. */
  lemma MentionedExact(ct: seq<MonHocCt>, c: YeuCau, nhac: string -> bool) returns (vi: seq<nat>)
    ensures Ascending(vi) && forall i: nat :: i in vi <==> i < |ct| && DuocNhac(ct, c, nhac, vi, i)
    ensures LuoiAnToan(ct, c, nhac) == c.(monTuChonMuonHoc := c.monTuChonMuonHoc + TenTai(ct, vi))
  {
    assert c.monTuChonMuonHoc + TenTai(ct, []) == c.monTuChonMuonHoc;
    assert ct[0..] == ct;
    vi := NhacTu(ct, c, nhac, 0, [], c);
  }

  // ---------------------------------------------------------------- electives to fill with

  /** Most classes first. */
  ghost predicate NhieuLopTruoc(ms: seq<MonHocCt>, lops: LopTheoMon) {
    forall i, j :: 0 <= i < j < |ms| ==> SoLop(ms[i], lops) >= SoLop(ms[j], lops)
  }

  lemma SapXepNhieuLop(ms: seq<MonHocCt>, lops: LopTheoMon)
    ensures NhieuLopTruoc(BoKhoa(StableDescending(KemSoLop(ms, lops, 1))), lops)
  {
    var s := KemSoLop(ms, lops, 1);
    var t := StableDescending(s);
    var r := BoKhoa(t);
    StableDescendingSorts(s);
    forall i | 0 <= i < |t| ensures t[i].1 == SoLop(t[i].0, lops) {
      assert t[i] in multiset(s);
    }
    forall i, j | 0 <= i < j < |r| ensures SoLop(r[i], lops) >= SoLop(r[j], lops) {
      assert t[i].1 >= t[j].1;
    }
  }

  /** The fill goes through the electives open to the student that are neither registered nor chosen nor were
      taken out at the student's wish, of the curriculum term if only that is wanted, each once, those with
      the most classes first. */
  lemma CandidatesExact(v: DauVao, chon: BangChon, bo: seq<MonHocCt>)
    requires KhongLap(v.ct)
    ensures var u := UngVienTuChon(v.ct, v.yeuCau, v.lops, v.daDangKy, chon, bo, v.kyDat);
            && KhongLap(u) && NhieuLopTruoc(u, v.lops)
            && forall m :: m in u <==>
                 && m in v.ct && m.loaiMonHoc == "Tự chọn" && m.coTheDangKy && m.maMonHoc !in v.daDangKy
                 && m.maMonHoc !in chon && (forall x :: x in bo ==> x.maMonHoc != m.maMonHoc)
                 && (v.yeuCau.chiKyHienTai ==> m.kyHoc == v.kyDat)
  {
    LocUngVienLayTu(v.ct, v.yeuCau, v.daDangKy, chon, bo, v.kyDat);
    var loc := LocUngVien(v.ct, v.yeuCau, v.daDangKy, chon, bo, v.kyDat);
    SapXepGiuMon(loc, v.lops, 1);
    SapXepNhieuLop(loc, v.lops);
  }
}
