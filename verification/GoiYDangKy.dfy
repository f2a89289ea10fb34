/** What the solver suggests, the registrar accepts. */
module GoiYDangKy {
  import opened Wrappers
  import opened Collections
  import opened LichHoc
  import opened Entities
  import opened XepLich
  import opened CoSoDuLieu
  import opened DangKyHocPhan
  import opened GhiDanh
  import opened ChuongTrinh
  import opened GoiYDanhSach
  import opened GoiYAnToan
  import opened GoiYDeXuat

  lemma LopDaDangKyNghia(dm: DanhMuc, db: Db, sv: nat, hk: nat, m: nat)
    requires ToanVen(dm, db) && m in MonDaDangKy(db, sv, hk)
    ensures var l := LopDaDangKy(db, sv, hk, m);
            l.maMonHoc == m && l.maHocKy == hk && l.maLopHocKy in db.lops && db.lops[l.maLopHocKy] == l &&
            exists d :: d in DangKyMon(db, sv, hk, m) && db.dangKys[d].maLopHocKy == l.maLopHocKy
  {
    DangKyMonTrongLop(db, sv, hk, m);
    var d := Least(DangKyMon(db, sv, hk, m));
    assert d in DangKyMon(db, sv, hk, m);
  }

  // ---------------------------------------------------------------- registering them one after another

  /** The outcomes of registering classes one after another, request i at time times[i]. */
  function DangKyLanLuot(dm: DanhMuc, db: Db, sv: nat, mas: seq<nat>, times: seq<int>): seq<KetCuc>
    requires ToanVen(dm, db) && |mas| == |times|
    decreases |mas|
  {
    if mas == [] then []
    else
      DangKyToanVen(dm, db, sv, mas[0], times[0]);
      var r := DangKy(dm, db, sv, mas[0], times[0]);
      [r.1] + DangKyLanLuot(dm, r.0, sv, mas[1..], times[1..])
  }

  /** The courses of `con` can still be taken as in `chon`: every class the student has this term is
      one of `chon` and of another course, and every class waiting has a free seat and overlaps nothing
      in `chon`. */
  ghost predicate SanSang(dm: DanhMuc, db: Db, sv: nat, hk: nat, chon: BangChon, con: seq<nat>)
    requires ToanVen(dm, db)
  {
    && sv in dm.sinhViens && hk in dm.hocKys
    && (forall k, l :: k in con && k in chon && l in chon && l != k ==> !TrungNhau(chon[k].lichHocs, chon[l].lichHocs))
    && (forall k :: k in chon ==> chon[k].maMonHoc == k)
    && (forall i, j :: 0 <= i < j < |con| ==> con[i] != con[j])
    && (forall d :: d in db.dangKys && db.dangKys[d].maSinhVien == sv &&
                    db.lops[db.dangKys[d].maLopHocKy].maHocKy == hk ==>
          var l := db.lops[db.dangKys[d].maLopHocKy]; l.maMonHoc in chon && chon[l.maMonHoc] == l && l.maMonHoc !in con)
    && (forall k :: k in con ==> ConDangKyDuoc(dm, db, hk, chon, k))
  }

  ghost predicate ConDangKyDuoc(dm: DanhMuc, db: Db, hk: nat, chon: BangChon, k: nat) {
    && k in chon && k in dm.monHocs && chon[k].maLopHocKy in db.lops && db.lops[chon[k].maLopHocKy] == chon[k]
    && chon[k].maHocKy == hk && SiSo(db, chon[k].maLopHocKy) < chon[k].siSoToiDa
  }

  /** The next class passes every guard if its course does. */
  lemma LopTiepQua(dm: DanhMuc, db: Db, sv: nat, hk: nat, chon: BangChon, con: seq<nat>, now: int)
    requires ToanVen(dm, db) && con != [] && SanSang(dm, db, sv, hk, chon, con)
    requires DangMoDangKy(dm, dm.sinhViens[sv], hk, now)
    ensures con[0] in chon && con[0] in dm.monHocs
    ensures KiemTraDangKy(dm, db, sv, chon[con[0]].maLopHocKy, now) == KiemTraMon(dm, db, sv, con[0], hk)
  {
    var k := con[0];
    assert ConDangKyDuoc(dm, db, hk, chon, k);
    var lop := chon[k];
    assert k in con;
    assert DangKyMon(db, sv, hk, k) == {};
    assert !TrungLichSinhVien(db, sv, hk, lop.lichHocs, None) by {
      forall l | l in db.lops && db.lops[l].maHocKy == hk && CoDangKy(db, sv, l)
        ensures !TrungNhau(lop.lichHocs, db.lops[l].lichHocs)
      {
        var d :| d in db.dangKys && db.dangKys[d] == DangKyLopHoc(sv, l);
        assert db.lops[db.dangKys[d].maLopHocKy].maMonHoc != k;
      }
    }
  }

  lemma LopTiepSanSang(dm: DanhMuc, db: Db, sv: nat, hk: nat, chon: BangChon, con: seq<nat>)
    requires ToanVen(dm, db) && con != [] && SanSang(dm, db, sv, hk, chon, con)
    requires con[0] in chon && ToanVen(dm, ThemDangKy(db, sv, chon[con[0]].maLopHocKy))
    ensures SanSang(dm, ThemDangKy(db, sv, chon[con[0]].maLopHocKy), sv, hk, chon, con[1..])
  {
    var k := con[0];
    assert ConDangKyDuoc(dm, db, hk, chon, k);
    var r := ThemDangKy(db, sv, chon[k].maLopHocKy);
    assert db.dangKyKe !in db.dangKys;
    assert forall x :: x in con <==> x == k || x in con[1..];
    forall x | x in con[1..] ensures ConDangKyDuoc(dm, r, hk, chon, x) {
      assert ConDangKyDuoc(dm, db, hk, chon, x);
      SiSoThem(db, sv, chon[k].maLopHocKy, chon[x].maLopHocKy);
      var i :| 0 <= i < |con[1..]| && con[1..][i] == x;
      assert con[0] != con[i + 1];
      assert chon[x].maMonHoc == x && chon[k].maMonHoc == k;
    }
    assert k !in con[1..];
  }

  lemma ThemGiuMaxZ(db: Db, sv: nat, ma: nat, m: nat)
    requires db.dangKyKe !in db.dangKys && db.dangKyKe !in db.diems
    ensures MaxZ(ThemDangKy(db, sv, ma), sv, m) == MaxZ(db, sv, m)
  {
    var r := ThemDangKy(db, sv, ma);
    assert forall d :: DaCham(r, d) <==> DaCham(db, d);
    assert CacZ(r, sv, m) == CacZ(db, sv, m);
  }

  lemma KiemTraMonTheoZ(dm: DanhMuc, db: Db, r: Db, sv: nat, mon: nat, hk: nat)
    requires sv in dm.sinhViens && mon in dm.monHocs && hk in dm.hocKys
    requires MaxZ(r, sv, mon) == MaxZ(db, sv, mon)
    requires var tq := dm.monHocs[mon].tienQuyet; tq.Some? ==> MaxZ(r, sv, tq.value) == MaxZ(db, sv, tq.value)
    ensures KiemTraMon(dm, r, sv, mon, hk) == KiemTraMon(dm, db, sv, mon, hk)
  {
  }

  /** A new registration has no grade, so the record of every course stays. */
  lemma KiemTraMonGiu(dm: DanhMuc, db: Db, sv: nat, ma: nat, mon: nat, hk: nat)
    requires ToanVen(dm, db) && sv in dm.sinhViens && mon in dm.monHocs && hk in dm.hocKys
    ensures KiemTraMon(dm, ThemDangKy(db, sv, ma), sv, mon, hk) == KiemTraMon(dm, db, sv, mon, hk)
  {
    assert db.dangKyKe !in db.dangKys && db.dangKyKe !in db.diems;
    ThemGiuMaxZ(db, sv, ma, mon);
    if dm.monHocs[mon].tienQuyet.Some? { ThemGiuMaxZ(db, sv, ma, dm.monHocs[mon].tienQuyet.value); }
    KiemTraMonTheoZ(dm, db, ThemDangKy(db, sv, ma), sv, mon, hk);
  }

  ghost predicate TatCaThanhCong(ks: seq<KetCuc>) { forall i :: 0 <= i < |ks| ==> ks[i] == ThanhCong }

  function CacMa(chon: BangChon, con: seq<nat>): seq<nat>
    requires forall k :: k in con ==> k in chon
  {
    if con == [] then [] else [chon[con[0]].maLopHocKy] + CacMa(chon, con[1..])
  }

  lemma {:induction false} CacMaDai(chon: BangChon, con: seq<nat>)
    requires forall k :: k in con ==> k in chon
    ensures |CacMa(chon, con)| == |con|
  {
    if con != [] { CacMaDai(chon, con[1..]); }
  }

  ghost predicate LuonMo(dm: DanhMuc, sv: nat, hk: nat, times: seq<int>)
    requires sv in dm.sinhViens
  {
    forall i :: 0 <= i < |times| ==> DangMoDangKy(dm, dm.sinhViens[sv], hk, times[i])
  }

  /** The first request, and then the others in the state it leaves. */
  lemma LanLuotMo(dm: DanhMuc, db: Db, sv: nat, mas: seq<nat>, times: seq<int>)
    requires ToanVen(dm, db) && mas != [] && |mas| == |times|
    ensures var r := DangKy(dm, db, sv, mas[0], times[0]);
            && ToanVen(dm, r.0)
            && (TatCaThanhCong(DangKyLanLuot(dm, db, sv, mas, times)) <==>
                r.1 == ThanhCong && TatCaThanhCong(DangKyLanLuot(dm, r.0, sv, mas[1..], times[1..])))
  {
    DangKyToanVen(dm, db, sv, mas[0], times[0]);
    var r, ks := DangKy(dm, db, sv, mas[0], times[0]), DangKyLanLuot(dm, db, sv, mas, times);
    assert ks == [r.1] + DangKyLanLuot(dm, r.0, sv, mas[1..], times[1..]);
    TatCaTach(ks);
    assert ks[1..] == DangKyLanLuot(dm, r.0, sv, mas[1..], times[1..]);
  }

  lemma ConTrongChon(dm: DanhMuc, db: Db, sv: nat, hk: nat, chon: BangChon, con: seq<nat>)
    requires ToanVen(dm, db) && SanSang(dm, db, sv, hk, chon, con)
    ensures forall k :: k in con ==> k in chon && k in dm.monHocs
    ensures |CacMa(chon, con)| == |con|
  {
    forall k | k in con ensures k in chon && k in dm.monHocs {
      assert ConDangKyDuoc(dm, db, hk, chon, k);
    }
    CacMaDai(chon, con);
  }

  ghost predicate MonDeuQua(dm: DanhMuc, db: Db, sv: nat, hk: nat, con: seq<nat>)
    requires sv in dm.sinhViens && hk in dm.hocKys && forall k :: k in con ==> k in dm.monHocs
  {
    forall k :: k in con ==> KiemTraMon(dm, db, sv, k, hk) == ThanhCong
  }

  /** Registering any class leaves the record of every course as it was. */
  lemma ConLaiGiu(dm: DanhMuc, db: Db, sv: nat, hk: nat, ma: nat, con: seq<nat>)
    requires ToanVen(dm, db) && sv in dm.sinhViens && hk in dm.hocKys && forall k :: k in con ==> k in dm.monHocs
    requires con != []
    ensures MonDeuQua(dm, db, sv, hk, con) <==>
            KiemTraMon(dm, db, sv, con[0], hk) == ThanhCong && MonDeuQua(dm, ThemDangKy(db, sv, ma), sv, hk, con[1..])
  {
    assert forall x :: x in con <==> x == con[0] || x in con[1..];
    forall k | k in con ensures KiemTraMon(dm, ThemDangKy(db, sv, ma), sv, k, hk) == KiemTraMon(dm, db, sv, k, hk) {
      KiemTraMonGiu(dm, db, sv, ma, k, hk);
    }
  }

  /** The classes of the courses `con` can be asked for one after another at these times. */
  ghost predicate CoTheLanLuot(dm: DanhMuc, db: Db, sv: nat, hk: nat, chon: BangChon, con: seq<nat>, times: seq<int>) {
    && ToanVen(dm, db) && SanSang(dm, db, sv, hk, chon, con) && |times| == |con| && LuonMo(dm, sv, hk, times)
    && (forall k :: k in con ==> k in chon && k in dm.monHocs) && |CacMa(chon, con)| == |con|
  }

  lemma ConTrongSau(dm: DanhMuc, chon: BangChon, con: seq<nat>)
    requires con != [] && (forall k :: k in con ==> k in chon && k in dm.monHocs) && |CacMa(chon, con)| == |con|
    ensures (forall k :: k in con[1..] ==> k in chon && k in dm.monHocs) && con[0] in con
    ensures |CacMa(chon, con[1..])| == |con[1..]|
    ensures CacMa(chon, con)[0] == chon[con[0]].maLopHocKy && CacMa(chon, con)[1..] == CacMa(chon, con[1..])
  {
    assert forall x :: x in con <==> x == con[0] || x in con[1..];
  }

  lemma LanLuotSau(dm: DanhMuc, db: Db, sv: nat, hk: nat, chon: BangChon, con: seq<nat>, times: seq<int>)
    requires CoTheLanLuot(dm, db, sv, hk, chon, con, times) && con != []
    requires ToanVen(dm, ThemDangKy(db, sv, chon[con[0]].maLopHocKy))
    ensures CoTheLanLuot(dm, ThemDangKy(db, sv, chon[con[0]].maLopHocKy), sv, hk, chon, con[1..], times[1..])
  {
    ConTrongSau(dm, chon, con);
    LopTiepSanSang(dm, db, sv, hk, chon, con);
  }

  /** The first class is accepted when its record is, and then the others are in the same position. */
  lemma LanLuotBuoc(dm: DanhMuc, db: Db, sv: nat, hk: nat, chon: BangChon, con: seq<nat>, times: seq<int>)
    requires CoTheLanLuot(dm, db, sv, hk, chon, con, times) && con != []
    ensures var r := ThemDangKy(db, sv, chon[con[0]].maLopHocKy);
            if KiemTraMon(dm, db, sv, con[0], hk) == ThanhCong then
              && CoTheLanLuot(dm, r, sv, hk, chon, con[1..], times[1..])
              && (TatCaThanhCong(DangKyLanLuot(dm, db, sv, CacMa(chon, con), times)) <==>
                  TatCaThanhCong(DangKyLanLuot(dm, r, sv, CacMa(chon, con[1..]), times[1..])))
            else !TatCaThanhCong(DangKyLanLuot(dm, db, sv, CacMa(chon, con), times))
  {
    ConTrongSau(dm, chon, con);
    LopTiepQua(dm, db, sv, hk, chon, con, times[0]);
    LanLuotMo(dm, db, sv, CacMa(chon, con), times);
    if KiemTraMon(dm, db, sv, con[0], hk) == ThanhCong { LanLuotSau(dm, db, sv, hk, chon, con, times); }
  }

  lemma {:induction false} LanLuotChinhXac(dm: DanhMuc, db: Db, sv: nat, hk: nat, chon: BangChon, con: seq<nat>,
      times: seq<int>)
    requires CoTheLanLuot(dm, db, sv, hk, chon, con, times)
    ensures TatCaThanhCong(DangKyLanLuot(dm, db, sv, CacMa(chon, con), times)) <==> MonDeuQua(dm, db, sv, hk, con)
    decreases |con|
  {
    if con != [] {
      var ma := chon[con[0]].maLopHocKy;
      LanLuotBuoc(dm, db, sv, hk, chon, con, times);
      ConLaiGiu(dm, db, sv, hk, ma, con);
      if KiemTraMon(dm, db, sv, con[0], hk) == ThanhCong {
        LanLuotChinhXac(dm, ThemDangKy(db, sv, ma), sv, hk, chon, con[1..], times[1..]);
      }
    }
  }

  lemma TatCaTach(ks: seq<KetCuc>)
    requires ks != []
    ensures TatCaThanhCong(ks) <==> ks[0] == ThanhCong && TatCaThanhCong(ks[1..])
  {
  }

  lemma LopMoNghia(db: Db, hk: nat, k: nat, l: LopHoc)
    requires k in LopTheoMonCua(db, hk) && l in LopTheoMonCua(db, hk)[k]
    ensures exists i :: i in db.lops && db.lops[i] == l && l.maHocKy == hk && l.maMonHoc == k &&
                        SiSo(db, i) < l.siSoToiDa
  {
    assert l in LopConCho(db, hk, k, SortedKeys(db.lops.Keys));
  }

  /** Courses of a suggestion that are not registered yet, each once, in any order. */
  ghost predicate MonChuaDangKy(v: DauVao, chon: BangChon, con: seq<nat>) {
    && (forall i, j :: 0 <= i < j < |con| ==> con[i] != con[j])
    && (forall k :: k in con ==> k in chon && k !in v.coDinh)
  }

  lemma MonCuaChon(dm: DanhMuc, db: Db, sv: nat, hk: nat, c: YeuCau, nhac: string -> bool, chon: BangChon, k: nat)
    requires ToanVen(dm, db) && sv in dm.sinhViens && hk in dm.hocKys && KhungDung(dm, KhungCua(dm, dm.sinhViens[sv]))
    requires DeXuatDung(LapDauVao(dm, db, sv, hk, c, nhac), chon) && k in chon
    ensures chon[k].maMonHoc == k
    ensures k !in CoDinh(db, sv, hk) ==> ConDangKyDuoc(dm, db, hk, chon, k)
  {
    if k in CoDinh(db, sv, hk) {
      LopDaDangKyNghia(dm, db, sv, hk, k);
    } else {
      assert MonMoi(LapDauVao(dm, db, sv, hk, c, nhac), k, chon[k]);
      LopMoNghia(db, hk, k, chon[k]);
    }
  }

  /** The student has at most one class of a course in the term. */
  predicate MotLopMoiMon(db: Db, sv: nat, hk: nat) {
    forall d, e | d in db.dangKys && e in db.dangKys ::
      LaDangKyKy(db, sv, hk, d) && LaDangKyKy(db, sv, hk, e) && MonCua(db, d) == MonCua(db, e) ==> d == e
  }

  predicate LaDangKyKy(db: Db, sv: nat, hk: nat, d: nat) {
    d in db.dangKys && db.dangKys[d].maSinhVien == sv && db.dangKys[d].maLopHocKy in db.lops &&
    db.lops[db.dangKys[d].maLopHocKy].maHocKy == hk
  }

  lemma DaDangKyLaCoDinh(dm: DanhMuc, db: Db, sv: nat, hk: nat, d: nat)
    requires ToanVen(dm, db) && MotLopMoiMon(db, sv, hk) && LaDangKyKy(db, sv, hk, d)
    ensures var l := db.lops[db.dangKys[d].maLopHocKy];
            l.maMonHoc in CoDinh(db, sv, hk) && CoDinh(db, sv, hk)[l.maMonHoc] == l
  {
    var m := MonCua(db, d);
    assert d in DangKyMon(db, sv, hk, m);
    DangKyMonTrongLop(db, sv, hk, m);
    var e := Least(DangKyMon(db, sv, hk, m));
    assert e in DangKyMon(db, sv, hk, m) && LaDangKyKy(db, sv, hk, e) && MonCua(db, e) == m;
  }

  lemma SanSangBanDau(dm: DanhMuc, db: Db, sv: nat, hk: nat, c: YeuCau, nhac: string -> bool, chon: BangChon,
      con: seq<nat>)
    requires ToanVen(dm, db) && MotLopMoiMon(db, sv, hk) && sv in dm.sinhViens && hk in dm.hocKys
    requires KhungDung(dm, KhungCua(dm, dm.sinhViens[sv]))
    requires var v := LapDauVao(dm, db, sv, hk, c, nhac); DeXuatDung(v, chon) && MonChuaDangKy(v, chon, con)
    ensures SanSang(dm, db, sv, hk, chon, con)
  {
    var v := LapDauVao(dm, db, sv, hk, c, nhac);
    forall k | k in chon ensures chon[k].maMonHoc == k { MonCuaChon(dm, db, sv, hk, c, nhac, chon, k); }
    forall k | k in con ensures ConDangKyDuoc(dm, db, hk, chon, k) { MonCuaChon(dm, db, sv, hk, c, nhac, chon, k); }
    forall d | d in db.dangKys && db.dangKys[d].maSinhVien == sv && db.lops[db.dangKys[d].maLopHocKy].maHocKy == hk
      ensures var l := db.lops[db.dangKys[d].maLopHocKy];
              l.maMonHoc in chon && chon[l.maMonHoc] == l && l.maMonHoc !in con
    {
      assert LaDangKyKy(db, sv, hk, d);
      DaDangKyLaCoDinh(dm, db, sv, hk, d);
    }
  }

  // ---------------------------------------------------------------- what can still be refused

  /** The registrar's verdict on the record of a suggested course, read off the advice page and the
      registrar's own curriculum term. That the course is passed well enough is never the reason. */
  lemma KiemTraTheoCt(dm: DanhMuc, db: Db, sv: nat, hk: nat, m: MonHocCt)
    requires sv in dm.sinhViens && hk in dm.hocKys && KhungDung(dm, KhungCua(dm, dm.sinhViens[sv]))
    requires m in BuildChuongTrinh(dm, db, sv, hk) && m.maMonHoc !in MonDaDangKy(db, sv, hk)
    requires m.coTheDangKy || m.trangThai != DaDat || m.caiThien
    ensures m.maMonHoc in dm.monHocs
    ensures KiemTraMon(dm, db, sv, m.maMonHoc, hk) ==
            if m.khongDuDieuKien then ThieuTienQuyet
            else if ChuaHocTruocKy(m, KyDangKy(dm, sv, hk)) then ChuaToiKy
            else ThanhCong
    ensures m.coTheDangKy ==> !m.khongDuDieuKien && !ChuaHocTruocKy(m, KyTrang(dm, sv, hk))
  {
    var ct, khung := BuildChuongTrinh(dm, db, sv, hk), KhungCua(dm, dm.sinhViens[sv]);
    var i :| 0 <= i < |ct| && ct[i] == m;
    TrongKhungTimThay(khung, i);
    DangKyMonTrongLop(db, sv, hk, m.maMonHoc);
  }

  /** Required, never attempted, and of a curriculum term after kyDat. */
  predicate ChuaHocTruocKy(m: MonHocCt, kyDat: int) {
    m.loaiMonHoc == BAT_BUOC && m.diemZ.None? && m.kyHoc > kyDat
  }

  /** Its prerequisite is not passed, or it is required, never attempted and ahead of the registrar's
      term. */
  predicate BiTuChoi(m: MonHocCt, kyDangKy: int) { m.khongDuDieuKien || ChuaHocTruocKy(m, kyDangKy) }

  lemma TuChoiExact(dm: DanhMuc, db: Db, sv: nat, hk: nat, v: DauVao, k: nat, l: LopHoc)
    requires sv in dm.sinhViens && hk in dm.hocKys && KhungDung(dm, KhungCua(dm, dm.sinhViens[sv]))
    requires v.ct == BuildChuongTrinh(dm, db, sv, hk) && v.daDangKy == MonDaDangKy(db, sv, hk)
    requires KhongLap(v.ct) && MonMoi(v, k, l) && k in dm.monHocs
    ensures KiemTraMon(dm, db, sv, k, hk) == ThanhCong <==>
            forall m :: m in v.ct && m.maMonHoc == k ==> !BiTuChoi(m, KyDangKy(dm, sv, hk))
    ensures forall m :: m in v.ct && m.maMonHoc == k && BiTuChoi(m, KyDangKy(dm, sv, hk)) ==>
              NeuTen(v, m) || (!m.khongDuDieuKien && m.kyHoc <= KyTrang(dm, sv, hk))
  {
    var m :| m in v.ct && m.maMonHoc == k && (m.coTheDangKy || NeuTen(v, m));
    KiemTraTheoCt(dm, db, sv, hk, m);
    forall x | x in v.ct && x.maMonHoc == k ensures x == m { CungMaCungMon(v.ct, x, m); }
  }

  lemma TungMonTuChoi(dm: DanhMuc, db: Db, sv: nat, hk: nat, v: DauVao, chon: BangChon, con: seq<nat>)
    requires sv in dm.sinhViens && hk in dm.hocKys && KhungDung(dm, KhungCua(dm, dm.sinhViens[sv]))
    requires v.ct == BuildChuongTrinh(dm, db, sv, hk) && v.daDangKy == MonDaDangKy(db, sv, hk)
    requires KhongLap(v.ct) && forall k :: k in con ==> k in dm.monHocs && k in chon && MonMoi(v, k, chon[k])
    ensures forall k :: k in con ==>
              (KiemTraMon(dm, db, sv, k, hk) == ThanhCong <==>
               forall m :: m in v.ct && m.maMonHoc == k ==> !BiTuChoi(m, KyDangKy(dm, sv, hk)))
    ensures forall m :: m in v.ct && m.maMonHoc in con && BiTuChoi(m, KyDangKy(dm, sv, hk)) ==>
              NeuTen(v, m) || (!m.khongDuDieuKien && m.kyHoc <= KyTrang(dm, sv, hk))
  {
    forall k | k in con
      ensures KiemTraMon(dm, db, sv, k, hk) == ThanhCong <==>
              forall m :: m in v.ct && m.maMonHoc == k ==> !BiTuChoi(m, KyDangKy(dm, sv, hk))
      ensures forall m :: m in v.ct && m.maMonHoc == k && BiTuChoi(m, KyDangKy(dm, sv, hk)) ==>
                NeuTen(v, m) || (!m.khongDuDieuKien && m.kyHoc <= KyTrang(dm, sv, hk))
    {
      TuChoiExact(dm, db, sv, hk, v, k, chon[k]);
    }
  }

  lemma SuggestionsVerdict(dm: DanhMuc, db: Db, sv: nat, hk: nat, v: DauVao, chon: BangChon, con: seq<nat>)
    requires sv in dm.sinhViens && hk in dm.hocKys && KhungDung(dm, KhungCua(dm, dm.sinhViens[sv]))
    requires v.ct == BuildChuongTrinh(dm, db, sv, hk) && v.daDangKy == MonDaDangKy(db, sv, hk)
    requires KhongLap(v.ct) && forall k :: k in con ==> k in dm.monHocs && k in chon && MonMoi(v, k, chon[k])
    ensures MonDeuQua(dm, db, sv, hk, con) <==>
            forall m :: m in v.ct && m.maMonHoc in con ==> !BiTuChoi(m, KyDangKy(dm, sv, hk))
    ensures KyTrang(dm, sv, hk) <= KyDangKy(dm, sv, hk) ==>
              forall m :: m in v.ct && m.maMonHoc in con && BiTuChoi(m, KyDangKy(dm, sv, hk)) ==> NeuTen(v, m)
  {
    TungMonTuChoi(dm, db, sv, hk, v, chon, con);
  }

  /** The registrar against the solver. Take any suggestion made to a student who has at most one class
      per course in the term, and any of its new classes, in any order, while the round is open and
      nobody else acts. Registering them one after another succeeds throughout exactly when none of
      them is of a course without its prerequisite, or required, never attempted and ahead of the
      registrar's own term: overlap, seats, one class per course and a passing grade never refuse. Unless
      the registrar's term is lower than the page's, only courses asked for by name are of that kind; so
      then, if nothing was asked for by name, everything succeeds. */
  lemma SuggestionsRegistrable(
      dm: DanhMuc, db: Db, sv: nat, hk: nat, c: YeuCau, nhac: string -> bool, g: nat, con: seq<nat>, times: seq<int>)
    requires ToanVen(dm, db) && MotLopMoiMon(db, sv, hk) && sv in dm.sinhViens && hk in dm.hocKys
    requires KhungDung(dm, KhungCua(dm, dm.sinhViens[sv]))
    requires var v := LapDauVao(dm, db, sv, hk, c, nhac);
             g < |GoiY(v)| && MonChuaDangKy(v, GoiY(v)[g].chon, con)
    requires |times| == |con| && LuonMo(dm, sv, hk, times)
    ensures var v := LapDauVao(dm, db, sv, hk, c, nhac);
            var chon, ky := GoiY(v)[g].chon, KyDangKy(dm, sv, hk);
            && |CacMa(chon, con)| == |con|
            && (TatCaThanhCong(DangKyLanLuot(dm, db, sv, CacMa(chon, con), times)) <==>
                forall m :: m in v.ct && m.maMonHoc in con ==> !BiTuChoi(m, ky))
            && (KyTrang(dm, sv, hk) <= ky ==>
                  forall m :: m in v.ct && m.maMonHoc in con && BiTuChoi(m, ky) ==> NeuTen(v, m))
            && (KyTrang(dm, sv, hk) <= ky && TenMuon(v) == [] ==>
                  TatCaThanhCong(DangKyLanLuot(dm, db, sv, CacMa(chon, con), times)))
  {
    var v := LapDauVao(dm, db, sv, hk, c, nhac);
    var chon := GoiY(v)[g].chon;
    LapDauVaoDung(dm, db, sv, hk, c, nhac);
    SuggestionsSound(v);
    SanSangBanDau(dm, db, sv, hk, c, nhac, chon, con);
    ConTrongChon(dm, db, sv, hk, chon, con);
    LanLuotChinhXac(dm, db, sv, hk, chon, con, times);
    SuggestionsVerdict(dm, db, sv, hk, v, chon, con);
  }
}
