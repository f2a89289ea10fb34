/** Cached credits and GPA in the fields of the tables. */
module TichLuyBang {
  import opened Wrappers
  import opened Collections
  import opened CoSoDuLieu
  import opened TichLuyDiem
  import opened TichLuyLuu
  import opened DangKyHocPhan
  import opened DangKyNghia
  import HeThong

  /** The credits of each course the student has a grade of 4.00 or more in. */
  ghost function TinChiBang(dm: DanhMuc, db: Db, sv: nat): map<nat, nat> {
    map m | m in dm.monHocs && DatTu(db, sv, m, 400) :: dm.monHocs[m].soTinChi
  }

  /** The student's best grade in a course, 0 without one. */
  function DiemCao(db: Db, sv: nat, mon: nat): nat {
    var z := MaxZ(db, sv, mon);
    if z.Some? then z.value else 0
  }

  /** It is at least t exactly when some recorded grade is. */
  lemma DiemCaoNghia(db: Db, sv: nat, mon: nat, t: nat)
    requires t > 0
    ensures DiemCao(db, sv, mon) >= t <==> DatTu(db, sv, mon, t)
  {
    MaxZNghia(db, sv, mon, t);
  }

  /** Points, in tenths, of these courses: credits times the four-point value of the best grade. */
  ghost function DiemBang(dm: DanhMuc, db: Db, sv: nat): map<nat, nat> {
    map m | m in dm.monHocs && DatTu(db, sv, m, 400) :: Thang4(DiemCao(db, sv, m)) * dm.monHocs[m].soTinChi
  }

  lemma DongDat(dm: DanhMuc, db: Db, sv: nat, m: nat, t: nat)
    requires ToanVen(dm, db)
    ensures DatTu(db, sv, m, t) <==> exists r :: r in CacDong(dm, db, sv) && r.maMonHoc == m && r.z >= t
    ensures DatTu(db, sv, m, t) ==> m in dm.monHocs
  {
    if DatTu(db, sv, m, t) {
      var d :| d in db.dangKys && d in db.diems && CoDiemTu(db, d, sv, m, t);
      var r := DongCua(dm, db, d);
      assert DaCham(db, d) && MonCua(db, d) == m;
      CacDongNghia(dm, db, sv, r);
    }
    if r :| r in CacDong(dm, db, sv) && r.maMonHoc == m && r.z >= t {
      CacDongNghia(dm, db, sv, r);
      var d :| DaCham(db, d) && db.dangKys[d].maSinhVien == sv && DongCua(dm, db, d) == r;
      assert CoDiemTu(db, d, sv, m, t);
    }
  }

  lemma DongTinChi(dm: DanhMuc, db: Db, sv: nat, r: Dong)
    requires ToanVen(dm, db) && r in CacDong(dm, db, sv)
    ensures r.maMonHoc in dm.monHocs && r.soTinChi == dm.monHocs[r.maMonHoc].soTinChi
  {
    CacDongNghia(dm, db, sv, r);
  }

  /** z is the best grade when some row has it and none has more. */
  lemma LaDiemCao(dm: DanhMuc, db: Db, sv: nat, m: nat, z: nat)
    requires ToanVen(dm, db)
    requires exists r :: r in CacDong(dm, db, sv) && r.maMonHoc == m && r.z >= z
    requires !exists r :: r in CacDong(dm, db, sv) && r.maMonHoc == m && r.z >= z + 1
    ensures DiemCao(db, sv, m) == z
  {
    DongDat(dm, db, sv, m, z);
    DongDat(dm, db, sv, m, z + 1);
    MaxZNghia(db, sv, m, z);
    MaxZNghia(db, sv, m, z + 1);
  }

  /** The row that counts for a course carries the best grade. */
  lemma DongTotNhat(dm: DanhMuc, db: Db, sv: nat, m: nat)
    requires ToanVen(dm, db)
    ensures var t := TotNhatCua(CacDong(dm, db, sv), m);
            && (t.Some? && t.value.z >= 400 <==> DatTu(db, sv, m, 400))
            && (t.Some? ==> t.value in CacDong(dm, db, sv) && t.value.maMonHoc == m && t.value.z == DiemCao(db, sv, m))
  {
    var rows := CacDong(dm, db, sv);
    var t := TotNhatCua(rows, m);
    TotNhatNghia(rows, m);
    DongDat(dm, db, sv, m, 400);
    if t.Some? { LaDiemCao(dm, db, sv, m, t.value.z); }
  }

  /** One course. */
  lemma MotMon(dm: DanhMuc, db: Db, sv: nat, m: nat)
    requires ToanVen(dm, db)
    ensures var rows := CacDong(dm, db, sv);
            && (m in ZDat(rows) <==> m in dm.monHocs && DatTu(db, sv, m, 400))
            && (m in ZDat(rows) ==> TinChiDat(rows)[m] == dm.monHocs[m].soTinChi &&
                                    DiemDat(rows)[m] == Thang4(DiemCao(db, sv, m)) * dm.monHocs[m].soTinChi)
  {
    var rows := CacDong(dm, db, sv);
    BangNghia(rows, m);
    DongTotNhat(dm, db, sv, m);
    DongDat(dm, db, sv, m, 400);
    var t := TotNhatCua(rows, m);
    if t.Some? { DongTinChi(dm, db, sv, t.value); }
  }

  ghost predicate CungMuc(a: map<nat, nat>, b: map<nat, nat>, m: nat) {
    (m in a <==> m in b) && (m in a ==> a[m] == b[m])
  }

  lemma CungBang(a: map<nat, nat>, b: map<nat, nat>)
    requires forall m: nat :: CungMuc(a, b, m)
    ensures a == b
  {
    forall m: nat ensures (m in a <==> m in b) && (m in a ==> a[m] == b[m]) { assert CungMuc(a, b, m); }
  }

  lemma MotMuc(dm: DanhMuc, db: Db, sv: nat, m: nat)
    requires ToanVen(dm, db)
    ensures CungMuc(TinChiDat(CacDong(dm, db, sv)), TinChiBang(dm, db, sv), m)
    ensures CungMuc(DiemDat(CacDong(dm, db, sv)), DiemBang(dm, db, sv), m)
  {
    MotMon(dm, db, sv, m);
    BangNghia(CacDong(dm, db, sv), m);
  }

  /** What is cached: the credits of the courses in which some recorded grade is 4.00 or more, each once, and the
      mean of their best grades on the four-point scale weighted by credits, rounded to hundredths. */
  lemma TotalsInTables(dm: DanhMuc, db: Db, sv: nat)
    requires ToanVen(dm, db)
    ensures var t, c := TinhTichLuy(CacDong(dm, db, sv)), Total(TinChiBang(dm, db, sv));
            && t.tongTinChi == c
            && t.gpa == if c == 0 then 0 else LamTron(Total(DiemBang(dm, db, sv)) * 10, c)
  {
    var rows := CacDong(dm, db, sv);
    forall m: nat ensures CungMuc(TinChiDat(rows), TinChiBang(dm, db, sv), m) { MotMuc(dm, db, sv, m); }
    forall m: nat ensures CungMuc(DiemDat(rows), DiemBang(dm, db, sv), m) { MotMuc(dm, db, sv, m); }
    CungBang(TinChiDat(rows), TinChiBang(dm, db, sv));
    CungBang(DiemDat(rows), DiemBang(dm, db, sv));
    CountsEachCourseOnce(rows);
  }

  /** The four-point scale in tenths: 10 from grade 4.00 on, and 5 more from each of the grades 5.00, 5.50, 6.50,
      7.00, 8.00 and 8.50 on. */
  lemma ScaleSteps(z: nat)
    ensures Thang4(z) == (if z >= 400 then 10 else 0) + 5 * (Tu(z, 500) + Tu(z, 550) + Tu(z, 650) + Tu(z, 700) +
                                                             Tu(z, 800) + Tu(z, 850))
  {
  }

  function Tu(z: nat, t: nat): nat { if z >= t then 1 else 0 }

  /** After a grade is entered the student's cached values are these. */
  lemma GradingCachesTotals(dm: DanhMuc, db: Db, quyen: bool, d: nat, x: Option<real>, y: Option<real>)
    requires ToanVen(dm, db) && NhapDiem.NhapDiem(dm, db, quyen, d, x, y).1 == ThanhCong
    ensures var r := NhapDiem.NhapDiem(dm, db, quyen, d, x, y).0;
            && d in db.dangKys
            && var sv := db.dangKys[d].maSinhVien;
               var c := Total(TinChiBang(dm, r, sv));
               && sv in r.tichLuy && r.tichLuy[sv].tongTinChi == c
               && r.tichLuy[sv].gpa == if c == 0 then 0 else LamTron(Total(DiemBang(dm, r, sv)) * 10, c)
  {
    var r := NhapDiem.NhapDiem(dm, db, quyen, d, x, y).0;
    GradingRefreshesCache(dm, db, quyen, d, x, y);
    HeThong.NhapDiemToanVen(dm, db, quyen, d, x, y);
    TotalsInTables(dm, r, db.dangKys[d].maSinhVien);
  }
}
