/** Which courses the solver is given, read off the curriculum and the request, and that none of them
    is lost: every suggestion holds it or says that it could not be placed. */
module GoiYCanXep {
  import opened Wrappers
  import opened Entities
  import opened XepLich
  import opened XepLichAnToan
  import opened BienThe
  import opened GoiYDanhSach
  import opened GoiYLanLuot
  import opened GoiYAnToan
  import opened GoiYDeXuat

  // ---------------------------------------------------------------- courses to place

  /** A required course open to the student, of the curriculum term if only that term is wanted. */
  ghost predicate BatBuocMo(v: DauVao, m: MonHocCt) {
    m.loaiMonHoc == "Bắt buộc" && m.coTheDangKy && (v.yeuCau.chiKyHienTai ==> m.kyHoc == v.kyDat)
  }

  /** m is the first course of the list that matches the name. */
  ghost predicate KhopDau(ms: seq<MonHocCt>, c: YeuCau, ten: string, m: MonHocCt) {
    exists i :: 0 <= i < |ms| && ms[i] == m && c.khop(m.tenMonHoc, ten) &&
                forall j :: 0 <= j < i ==> !c.khop(ms[j].tenMonHoc, ten)
  }

  /** The course has a class with a free seat, and it was not passed or may be improved. */
  ghost predicate HocDuoc(v: DauVao, m: MonHocCt) {
    m.maMonHoc in v.lops && (m.trangThai != DaDat || m.caiThien)
  }

  /** One of the first k names the student wants picks this course, and it can be taken. */
  ghost predicate DuocGoi(v: DauVao, m: MonHocCt, k: nat) {
    HocDuoc(v, m) && exists a :: 0 <= a < k && a < |TenMuon(v)| && KhopDau(v.ct, v.yeuCau, TenMuon(v)[a], m)
  }

  /** x comes before y: required courses first, in curriculum order; then the others, in the order of the
      names that pick them. */
  ghost predicate TruocSau(v: DauVao, x: MonHocCt, y: MonHocCt) {
    if BatBuocMo(v, x) then
      BatBuocMo(v, y) ==> exists a, b :: 0 <= a < b < |v.ct| && v.ct[a] == x && v.ct[b] == y
    else
      !BatBuocMo(v, y) && exists a :: 0 <= a < |TenMuon(v)| && GoiTruoc(v, a, x, y)
  }

  /** Name a picks x, and none up to it picks y. */
  ghost predicate GoiTruoc(v: DauVao, a: nat, x: MonHocCt, y: MonHocCt)
    requires a < |TenMuon(v)|
  {
    && KhopDau(v.ct, v.yeuCau, TenMuon(v)[a], x)
    && forall b :: 0 <= b <= a ==> !KhopDau(v.ct, v.yeuCau, TenMuon(v)[b], y)
  }

  /** The courses to place before any is taken out, k names having been read. */
  ghost predicate DanhSach(v: DauVao, ds: seq<MonHocCt>, k: nat) {
    && KhongLap(ds)
    && (forall m :: m in ds <==> m in v.ct && (BatBuocMo(v, m) || DuocGoi(v, m, k)))
    && (forall i, j :: 0 <= i < j < |ds| ==> TruocSau(v, ds[i], ds[j]))
  }

  lemma {:induction false} TimNghia(ct: seq<MonHocCt>, c: YeuCau, ten: string, m: MonHocCt)
    ensures TimTheoTen(ct, c, ten) == Some(m) <==> KhopDau(ct, c, ten, m)
  {
    if ct != [] {
      var con := ct[1..];
      TimNghia(con, c, ten, m);
      assert forall j :: 0 < j < |ct| ==> ct[j] == con[j - 1];
      if !c.khop(ct[0].tenMonHoc, ten) {
        if i :| 0 <= i < |con| && con[i] == m && c.khop(m.tenMonHoc, ten) &&
                forall j :: 0 <= j < i ==> !c.khop(con[j].tenMonHoc, ten) {
          assert ct[i + 1] == m;
        }
        if i :| 0 <= i < |ct| && ct[i] == m && c.khop(m.tenMonHoc, ten) &&
                forall j :: 0 <= j < i ==> !c.khop(ct[j].tenMonHoc, ten) {
          assert con[i - 1] == m && forall j :: 0 <= j < i - 1 ==> con[j] == ct[j + 1];
        }
      }
    }
  }

  /** The required courses are listed in curriculum order. */
  lemma {:induction false} BatBuocThuTu(ct: seq<MonHocCt>, c: YeuCau, kyDat: int, i: nat, j: nat)
    requires var r := BatBuocCanXep(ct, c, kyDat); i < j < |r|
    ensures var r := BatBuocCanXep(ct, c, kyDat);
            exists a, b :: 0 <= a < b < |ct| && ct[a] == r[i] && ct[b] == r[j]
  {
    var con, sau := ct[1..], BatBuocCanXep(ct[1..], c, kyDat);
    var r := BatBuocCanXep(ct, c, kyDat);
    if !CanXepMacDinh(ct[0], c, kyDat) {
      assert r == sau;
      BatBuocThuTu(con, c, kyDat, i, j);
      var a, b :| 0 <= a < b < |con| && con[a] == r[i] && con[b] == r[j];
      assert ct[a + 1] == con[a] && ct[b + 1] == con[b];
    } else if i > 0 {
      assert r[i] == sau[i - 1] && r[j] == sau[j - 1];
      BatBuocThuTu(con, c, kyDat, i - 1, j - 1);
      var a, b :| 0 <= a < b < |con| && con[a] == sau[i - 1] && con[b] == sau[j - 1];
      assert ct[a + 1] == con[a] && ct[b + 1] == con[b];
    } else {
      assert r[j] == sau[j - 1] && sau[j - 1] in sau;
      BatBuocTrong(con, c, kyDat, sau[j - 1]);
      var b :| 0 <= b < |con| && con[b] == sau[j - 1];
      assert ct[0] == r[0] && ct[b + 1] == con[b];
    }
  }

  lemma {:induction false} BatBuocTrong(ct: seq<MonHocCt>, c: YeuCau, kyDat: int, m: MonHocCt)
    requires m in BatBuocCanXep(ct, c, kyDat)
    ensures m in ct
  {
    if ct != [] && m != ct[0] { BatBuocTrong(ct[1..], c, kyDat, m); }
  }

  lemma DanhSachDau(v: DauVao)
    requires KhongLap(v.ct)
    ensures DanhSach(v, BatBuocCanXep(v.ct, v.yeuCau, v.kyDat), 0)
  {
    var r := BatBuocCanXep(v.ct, v.yeuCau, v.kyDat);
    BatBuocLayTu(v.ct, v.yeuCau, v.kyDat);
    forall i, j | 0 <= i < j < |r| ensures TruocSau(v, r[i], r[j]) {
      assert r[i] in r && r[j] in r;
      BatBuocThuTu(v.ct, v.yeuCau, v.kyDat, i, j);
    }
  }

  // ---------------------------------------------------------------- courses asked for by name

  lemma KhopDauMot(v: DauVao, ten: string, x: MonHocCt, y: MonHocCt)
    requires KhopDau(v.ct, v.yeuCau, ten, x) && KhopDau(v.ct, v.yeuCau, ten, y)
    ensures x == y
  {
    TimNghia(v.ct, v.yeuCau, ten, x);
    TimNghia(v.ct, v.yeuCau, ten, y);
  }

  lemma GoiThem(v: DauVao, k: nat, m: MonHocCt)
    requires k < |TenMuon(v)|
    ensures DuocGoi(v, m, k + 1) <==>
            DuocGoi(v, m, k) || (HocDuoc(v, m) && KhopDau(v.ct, v.yeuCau, TenMuon(v)[k], m))
  {
  }

  /** Name k adds course t. */
  lemma DanhSachThem(v: DauVao, ms: seq<MonHocCt>, k: nat, t: MonHocCt, sau: seq<MonHocCt>)
    requires KhongLap(v.ct) && DanhSach(v, ms, k) && k < |TenMuon(v)| && sau == ms + [t]
    requires t in v.ct && KhopDau(v.ct, v.yeuCau, TenMuon(v)[k], t) && HocDuoc(v, t) && t !in ms
    ensures DanhSach(v, sau, k + 1)
  {
    forall m ensures m in sau <==> m in v.ct && (BatBuocMo(v, m) || DuocGoi(v, m, k + 1)) {
      GoiThem(v, k, m);
      if KhopDau(v.ct, v.yeuCau, TenMuon(v)[k], m) { KhopDauMot(v, TenMuon(v)[k], m, t); }
    }
    forall i | 0 <= i < |ms| ensures ms[i].maMonHoc != t.maMonHoc && TruocSau(v, ms[i], t) {
      var x := ms[i];
      assert x in ms;
      if x.maMonHoc == t.maMonHoc { CungMaCungMon(v.ct, x, t); }
      if !BatBuocMo(v, x) {
        var a :| 0 <= a < k && a < |TenMuon(v)| && KhopDau(v.ct, v.yeuCau, TenMuon(v)[a], x);
        assert GoiTruoc(v, a, x, t);
      }
    }
  }

  /** Name k adds nothing. */
  lemma DanhSachBoQua(v: DauVao, ms: seq<MonHocCt>, k: nat)
    requires DanhSach(v, ms, k) && k < |TenMuon(v)|
    requires forall m :: m in v.ct && KhopDau(v.ct, v.yeuCau, TenMuon(v)[k], m) && HocDuoc(v, m) ==> m in ms
    ensures DanhSach(v, ms, k + 1)
  {
    forall m ensures m in ms <==> m in v.ct && (BatBuocMo(v, m) || DuocGoi(v, m, k + 1)) { GoiThem(v, k, m); }
  }

  lemma ThemBuoc(v: DauVao, ms: seq<MonHocCt>, tens: seq<string>, con: seq<string>, t: Option<MonHocCt>,
                 sau: seq<MonHocCt>)
    requires tens != [] && con == tens[1..] && t == TimTheoTen(v.ct, v.yeuCau, tens[0])
    requires sau == if t.Some? && HocDuoc(v, t.value) && !CoMa(ms, t.value.maMonHoc) then ms + [t.value] else ms
    ensures ThemTheoTen(ms, v.ct, v.yeuCau, v.lops, tens) == ThemTheoTen(sau, v.ct, v.yeuCau, v.lops, con)
  {
  }

  lemma TrungMa(v: DauVao, ms: seq<MonHocCt>, m: MonHocCt)
    requires KhongLap(v.ct) && m in v.ct && forall x :: x in ms ==> x in v.ct
    ensures CoMa(ms, m.maMonHoc) <==> m in ms
  {
    if CoMa(ms, m.maMonHoc) {
      var x :| x in ms && x.maMonHoc == m.maMonHoc;
      CungMaCungMon(v.ct, x, m);
    }
  }

  /** What name k does to the list. */
  lemma ThemMotTen(v: DauVao, ms: seq<MonHocCt>, k: nat, t: Option<MonHocCt>, sau: seq<MonHocCt>)
    requires KhongLap(v.ct) && DanhSach(v, ms, k) && k < |TenMuon(v)|
    requires t == TimTheoTen(v.ct, v.yeuCau, TenMuon(v)[k])
    requires sau == if t.Some? && HocDuoc(v, t.value) && !CoMa(ms, t.value.maMonHoc) then ms + [t.value] else ms
    ensures DanhSach(v, sau, k + 1)
  {
    var ten := TenMuon(v)[k];
    TimTheoTenTrong(v.ct, v.yeuCau, ten);
    if t.Some? {
      TimNghia(v.ct, v.yeuCau, ten, t.value);
      TrungMa(v, ms, t.value);
    }
    if t.Some? && HocDuoc(v, t.value) && t.value !in ms {
      DanhSachThem(v, ms, k, t.value, sau);
    } else {
      forall m | m in v.ct && KhopDau(v.ct, v.yeuCau, ten, m) && HocDuoc(v, m) ensures m in ms {
        TimNghia(v.ct, v.yeuCau, ten, m);
      }
      DanhSachBoQua(v, ms, k);
    }
  }

  lemma ThemMot(v: DauVao, ms: seq<MonHocCt>, k: nat, n: nat, tens: seq<string>, con: seq<string>)
      returns (sau: seq<MonHocCt>)
    requires KhongLap(v.ct) && DanhSach(v, ms, k) && k < |TenMuon(v)| && n == k + 1
    requires tens != [] && tens[0] == TenMuon(v)[k] && con == tens[1..]
    ensures DanhSach(v, sau, n)
    ensures ThemTheoTen(ms, v.ct, v.yeuCau, v.lops, tens) == ThemTheoTen(sau, v.ct, v.yeuCau, v.lops, con)
  {
    var t := TimTheoTen(v.ct, v.yeuCau, tens[0]);
    sau := if t.Some? && HocDuoc(v, t.value) && !CoMa(ms, t.value.maMonHoc) then ms + [t.value] else ms;
    ThemMotTen(v, ms, k, t, sau);
    ThemBuoc(v, ms, tens, con, t, sau);
  }

  lemma {:induction false} ThemLanLuot(v: DauVao, ms: seq<MonHocCt>, k: nat, tens: seq<string>)
      returns (ds: seq<MonHocCt>)
    requires KhongLap(v.ct) && k <= |TenMuon(v)| && tens == TenMuon(v)[k..] && DanhSach(v, ms, k)
    ensures ds == ThemTheoTen(ms, v.ct, v.yeuCau, v.lops, tens)
    ensures DanhSach(v, ds, |TenMuon(v)|)
    decreases |TenMuon(v)| - k
  {
    if k == |TenMuon(v)| {
      ds := ms;
    } else {
      var con, n := tens[1..], k + 1;
      var sau := ThemMot(v, ms, k, n, tens, con);
      ds := ThemLanLuot(v, sau, n, con);
    }
  }

  // ---------------------------------------------------------------- the list the solver gets

  /** The names of unwanted courses take courses out of the list one after another. */
  ghost predicate BoTheo(v: DauVao, ds: seq<MonHocCt>, bo: seq<Option<nat>>) {
    |bo| == |v.yeuCau.monKhongMuonHoc| && LayLanLuot(ds, v.yeuCau, v.yeuCau.monKhongMuonHoc, bo)
  }

  ghost predicate ConLai(v: DauVao, ds: seq<MonHocCt>, bo: seq<Option<nat>>, m: MonHocCt) {
    m.maMonHoc !in v.daDangKy && exists i: nat :: ConO(ds, bo, m, i)
  }

  /** The list to place. Its courses are those that are required and open, or picked by a name the student
      wants and can be taken, but for those the unwanted names take out, each the first match that is left,
      and for those already registered. What was taken out at the student's wish is kept apart. */
  lemma ListToPlaceExact(v: DauVao) returns (ds: seq<MonHocCt>, bo: seq<Option<nat>>)
    requires DauVaoDung(v)
    ensures DanhSach(v, ds, |TenMuon(v)|) && BoTheo(v, ds, bo)
    ensures forall m :: m in BaiCua(v).thuTu <==> ConLai(v, ds, bo, m)
    ensures CanXep(v.ct, v.yeuCau, v.lops, v.daDangKy, v.kyDat).1 == LayRa(ds, bo)
  {
    var c := v.yeuCau;
    var dau := BatBuocCanXep(v.ct, c, v.kyDat);
    DanhSachDau(v);
    assert TenMuon(v)[0..] == TenMuon(v);
    ds := ThemLanLuot(v, dau, 0, TenMuon(v));
    KhongLapRieng(ds);
    bo := BoLanLuot(ds, c, c.monKhongMuonHoc, [], 0);
    ConTuHet(ds, 0);
    assert ds[0..] == ds && c.monKhongMuonHoc[0..] == c.monKhongMuonHoc;
    var con := BoTheoTen(ds, [], c, c.monKhongMuonHoc).0;
    assert con == ConTu(ds, 0, bo);
    var ms := CanXep(v.ct, c, v.lops, v.daDangKy, v.kyDat).0;
    assert ms == BoMa(con, v.daDangKy);
    CanXepLayTu(v);
    BaTangHoanVi(ms, c, v.lops);
    forall m ensures m in BaiCua(v).thuTu <==> ConLai(v, ds, bo, m) {
      ConTuTrong(ds, 0, bo, m);
      BoMaNghia(con, v.daDangKy, m);
    }
  }

  // ---------------------------------------------------------------- nothing to place is lost

  /** No unwanted name matches the course. */
  ghost predicate KhongBiBo(v: DauVao, m: MonHocCt) {
    forall t :: t in v.yeuCau.monKhongMuonHoc ==> !v.yeuCau.khop(m.tenMonHoc, t)
  }

  lemma VanCanXep(v: DauVao, m: MonHocCt)
    requires DauVaoDung(v) && m in v.ct && KhongBiBo(v, m) && m.maMonHoc !in v.daDangKy
    requires BatBuocMo(v, m) || DuocGoi(v, m, |TenMuon(v)|)
    ensures m in BaiCua(v).thuTu
  {
    var ds, bo := ListToPlaceExact(v);
    assert m in ds;
    var i: nat :| i < |ds| && ds[i] == m;
    LayCoTen(ds, v.yeuCau, v.yeuCau.monKhongMuonHoc, bo, i);
    assert ConO(ds, bo, m, i);
  }

  ghost predicate BaoChuaXep(dx: DeXuat, ten: string) { exists x :: x in dx.khongXepDuoc && x.tenMonHoc == ten }

  lemma {:induction false} TenCo(ds: seq<MonKhongXep>, ten: string)
    requires ten in Ten(ds)
    ensures exists x :: x in ds && x.tenMonHoc == ten
  {
    if ds[0].tenMonHoc != ten { TenCo(ds[1..], ten); }
  }

  lemma {:induction false} ThieuCo(b: Bai, i: nat, chon: BangChon, j: nat)
    requires i <= j < |b.thuTu| && b.Ma(j) !in chon
    ensures b.thuTu[j].tenMonHoc in TenThieu(b, i, chon)
    decreases |b.thuTu| - i
  {
    if i < j { ThieuCo(b, i + 1, chon, j); }
  }

  /** Every suggestion holds the course, or says that it was not placed: a required course that is open, of
      the curriculum term if only that is wanted, or one that a wanted name picks and that can be taken,
      unless an unwanted name matches it. */
  lemma NothingToPlaceIsLost(v: DauVao, m: MonHocCt, g: nat)
    requires DauVaoDung(v) && g < |GoiY(v)| && m in v.ct && KhongBiBo(v, m)
    requires BatBuocMo(v, m) || DuocGoi(v, m, |TenMuon(v)|)
    ensures m.maMonHoc in GoiY(v)[g].chon || BaoChuaXep(GoiY(v)[g], m.tenMonHoc)
  {
    var b, kqs := BaiCua(v), TimNhieu(BaiCua(v), v.coDinh, SO_LUONG_GOI_Y);
    SolverInputDistinct(v);
    VariantsSound(b, v.coDinh, SO_LUONG_GOI_Y);
    SuggestionsSound(v);
    var kq := kqs[g];
    KetQuaGiu(v, g);
    if m.maMonHoc !in v.daDangKy && m.maMonHoc !in kq.chon {
      VanCanXep(v, m);
      var j: nat :| j < |b.thuTu| && b.thuTu[j] == m;
      ThieuCo(b, 0, kq.chon, j);
      TenCo(kq.khongXepDuoc, m.tenMonHoc);
    }
  }

  /** A suggestion holds what the solver chose and lists what the solver lists. */
  lemma KetQuaGiu(v: DauVao, g: nat)
    requires DauVaoDung(v) && g < |GoiY(v)|
    ensures var kqs := TimNhieu(BaiCua(v), v.coDinh, SO_LUONG_GOI_Y);
            && |kqs| == |GoiY(v)| && GoiY(v)[g].khongXepDuoc == kqs[g].khongXepDuoc
            && (forall k :: k in kqs[g].chon ==> k in GoiY(v)[g].chon)
            && Ten(kqs[g].khongXepDuoc) == TenThieu(BaiCua(v), 0, kqs[g].chon)
            && forall k :: k in v.daDangKy ==> k in GoiY(v)[g].chon
  {
    BienTheAnToan(v);
    var kqs := TimNhieu(BaiCua(v), v.coDinh, SO_LUONG_GOI_Y);
    SolverInputDistinct(v);
    VariantsSound(BaiCua(v), v.coDinh, SO_LUONG_GOI_Y);
    assert kqs[g] in kqs;
    KetQuaDung(v, kqs[g]);
    ElectiveNoteTrue(v, kqs[g]);
  }
}
