/** Entering a grade, and the cached credits and GPA it refreshes. */
module NhapDiem {
  import opened Wrappers
  import opened TichLuyDiem
  import opened CoSoDuLieu
  import opened DangKyHocPhan

  /** The nearest integer, a tie to the even one. */
  function LamTronThuc(r: real): int {
    var f := r.Floor;
    var le := r - f as real;
    if le < 0.5 then f else if le > 0.5 then f + 1 else if f % 2 == 0 then f else f + 1
  }

  /** The course grade in hundredths: the mean of the two parts, rounded. */
  function DiemZ(x: real, y: real): (z: nat)
    requires 0.0 <= x <= 10.0 && 0.0 <= y <= 10.0
    ensures z <= 1000 && -0.5 <= z as real - 50.0 * (x + y) <= 0.5
  {
    LamTronThuc(50.0 * (x + y))
  }

  function DiemMoi(x: Option<real>, y: Option<real>): DiemHocPhan
    requires x.Some? ==> 0.0 <= x.value <= 10.0
    requires y.Some? ==> 0.0 <= y.value <= 10.0
  {
    DiemHocPhan(x, y, if x.Some? && y.Some? then Some(DiemZ(x.value, y.value)) else None)
  }

  function LuuTichLuy(db: Db, sv: nat, t: TichLuy): Db {
    if sv in db.tichLuy then db.(tichLuy := db.tichLuy[sv := t]) else db
  }

  function TinhLai(dm: DanhMuc, db: Db, sv: nat): Db {
    LuuTichLuy(db, sv, TinhTichLuy(CacDong(dm, db, sv)))
  }

  /** `quyen` says whether the caller teaches the class. */
  function NhapDiem(dm: DanhMuc, db: Db, quyen: bool, d: nat, x: Option<real>, y: Option<real>): (Db, KetCuc) {
    if d !in db.dangKys then (db, KhongTimThay)
    else if !quyen then (db, KhongDuocPhep)
    else if x.Some? && (x.value < 0.0 || x.value > 10.0) then (db, DiemXSai)
    else if y.Some? && (y.value < 0.0 || y.value > 10.0) then (db, DiemYSai)
    else (TinhLai(dm, db.(diems := db.diems[d := DiemMoi(x, y)]), db.dangKys[d].maSinhVien), ThanhCong)
  }

  lemma LuuTichLuyNghia(db: Db, sv: nat, t: TichLuy)
    ensures var r := LuuTichLuy(db, sv, t);
            && r.lops == db.lops && r.dangKys == db.dangKys && r.diems == db.diems
            && r.lopKe == db.lopKe && r.dangKyKe == db.dangKyKe && r.tichLuy.Keys == db.tichLuy.Keys
            && (sv in db.tichLuy ==> r.tichLuy[sv] == t)
            && (forall s: nat :: s in db.tichLuy && s != sv ==> r.tichLuy[s] == db.tichLuy[s])
  {
  }

  lemma TinhLaiChiDoiTichLuy(dm: DanhMuc, db: Db, sv: nat)
    ensures var r := TinhLai(dm, db, sv);
            r.lops == db.lops && r.dangKys == db.dangKys && r.diems == db.diems && r.tichLuy.Keys == db.tichLuy.Keys &&
            r.lopKe == db.lopKe && r.dangKyKe == db.dangKyKe
  {
    LuuTichLuyNghia(db, sv, TinhTichLuy(CacDong(dm, db, sv)));
  }

  lemma NhapDiemChiDoiDiem(dm: DanhMuc, db: Db, quyen: bool, d: nat, x: Option<real>, y: Option<real>)
    ensures var r := NhapDiem(dm, db, quyen, d, x, y).0;
            r.lops == db.lops && r.dangKys == db.dangKys && r.diems.Keys <= db.diems.Keys + {d} &&
            r.tichLuy.Keys == db.tichLuy.Keys && r.lopKe == db.lopKe && r.dangKyKe == db.dangKyKe
  {
    var r := NhapDiem(dm, db, quyen, d, x, y);
    if r.1 == ThanhCong {
      var g := db.(diems := db.diems[d := DiemMoi(x, y)]);
      TinhLaiChiDoiTichLuy(dm, g, db.dangKys[d].maSinhVien);
      assert r.0 == TinhLai(dm, g, db.dangKys[d].maSinhVien);
    }
  }

  lemma NhapDiemThatBai(dm: DanhMuc, db: Db, quyen: bool, d: nat, x: Option<real>, y: Option<real>)
    requires NhapDiem(dm, db, quyen, d, x, y).1 != ThanhCong
    ensures NhapDiem(dm, db, quyen, d, x, y).0 == db
  {
  }

  lemma NhapDiemLaTinhLai(dm: DanhMuc, db: Db, quyen: bool, d: nat, x: Option<real>, y: Option<real>)
    requires NhapDiem(dm, db, quyen, d, x, y).1 == ThanhCong
    ensures d in db.dangKys && (x.Some? ==> 0.0 <= x.value <= 10.0) && (y.Some? ==> 0.0 <= y.value <= 10.0)
    ensures NhapDiem(dm, db, quyen, d, x, y).0 ==
            TinhLai(dm, db.(diems := db.diems[d := DiemMoi(x, y)]), db.dangKys[d].maSinhVien)
  {
  }

  /** The row holds the two parts, each in its own field, and a grade exactly if both are given: their mean to
      the nearest hundredth, a tie to the even one. */
  ghost predicate LaDiem(g: DiemHocPhan, x: Option<real>, y: Option<real>) {
    && g.diemX == x && g.diemY == y && (g.diemZ.Some? <==> x.Some? && y.Some?)
    && (g.diemZ.Some? ==>
          var le := 2.0 * (g.diemZ.value as real - 50.0 * (x.value + y.value));
          -1.0 <= le <= 1.0 && (le == 1.0 || le == -1.0 ==> g.diemZ.value % 2 == 0))
  }

  lemma DiemMoiNghia(x: Option<real>, y: Option<real>)
    requires (x.Some? ==> 0.0 <= x.value <= 10.0) && (y.Some? ==> 0.0 <= y.value <= 10.0)
    ensures LaDiem(DiemMoi(x, y), x, y)
  {
  }

  /** Entering grades succeeds exactly for a registration of a class one teaches and parts between 0 and 10.
      Then the row of that registration holds them and their mean, and no other row changes. */
  lemma GradeStored(dm: DanhMuc, db: Db, quyen: bool, d: nat, x: Option<real>, y: Option<real>)
    ensures var (r, kc) := NhapDiem(dm, db, quyen, d, x, y);
            && (kc == ThanhCong <==> d in db.dangKys && quyen && (x.Some? ==> 0.0 <= x.value <= 10.0) &&
                                     (y.Some? ==> 0.0 <= y.value <= 10.0))
            && (kc != ThanhCong ==> r == db)
            && (kc == ThanhCong ==>
                  && d in r.diems && LaDiem(r.diems[d], x, y)
                  && forall e :: e != d ==>
                       (e in r.diems <==> e in db.diems) && (e in db.diems ==> r.diems[e] == db.diems[e]))
  {
    if NhapDiem(dm, db, quyen, d, x, y).1 == ThanhCong {
      var g := db.(diems := db.diems[d := DiemMoi(x, y)]);
      NhapDiemLaTinhLai(dm, db, quyen, d, x, y);
      DiemMoiNghia(x, y);
      TinhLaiChiDoiTichLuy(dm, g, db.dangKys[d].maSinhVien);
      assert NhapDiem(dm, db, quyen, d, x, y).0.diems == db.diems[d := DiemMoi(x, y)];
    }
  }
}
