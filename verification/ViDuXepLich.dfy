/** Small timetable problems with neutral wishes, and a run in which the search gives a wrong reason. */
module ViDuXepLich {
  import opened Wrappers
  import opened Collections
  import opened LichHoc
  import opened Entities
  import opened Scoring
  import opened XepLich

  // ---------------------------------------------------------------- problems with equal scores

  /** A request without wishes: every class of one session scores 0. */
  function KhongYeuCau(): YeuCau {
    YeuCau((a, b) => false, map[], [], KhongRo, [], [], [], [], [], false, [], 0)
  }

  function MonVd(ma: nat, ten: string): MonHocCt {
    MonHocCt(ma, ten, BAT_BUOC, 3, 1, ChuaHoc, None, true, false, false, false, false, true)
  }

  /** A class with one weekly session. */
  function LopVd(ma: nat, mon: nat, thu: int, tietBatDau: int, tietKetThuc: int): LopHoc {
    LopHoc(ma, mon, 0, "L", "Lý thuyết", 10, [Buoi(thu, tietBatDau, tietKetThuc, 0, 100, None)], [])
  }

  ghost predicate MotBuoi(l: LopHoc) { |l.lichHocs| == 1 }

  lemma TrungMot(a: LopHoc, b: LopHoc)
    requires MotBuoi(a) && MotBuoi(b)
    ensures TrungNhau(a.lichHocs, b.lichHocs) <==> BuoiTrungNhau(a.lichHocs[0], b.lichHocs[0])
  {
    var x, y := a.lichHocs[0], b.lichHocs[0];
    assert x in a.lichHocs && y in b.lichHocs;
    if BuoiTrungNhau(x, y) { assert TrungVoi(x, b.lichHocs); }
  }

  lemma ScoreKhong(l: LopHoc, ten: string)
    requires MotBuoi(l)
    ensures Score(l, ten, KhongYeuCau()) == 0
  {
    var c := KhongYeuCau();
    assert l.lichHocs[..0] == [];
    assert DiemCacBuoi([], c) == 0;
    assert DiemBuoi(l.lichHocs[0], c) == 0;
    assert UuTienCua([], c, ten) == None;
  }

  lemma {:induction false} DaXep(s: seq<(LopHoc, int)>)
    requires forall i :: 0 <= i < |s| ==> s[i].1 == 0
    ensures StableDescending(s) == s
  {
    if s != [] {
      DaXep(s[1..]);
      assert s == [s[0]] + s[1..];
    }
  }

  /** With equal scores the classes are tried in the offered order. */
  lemma ThuTuNguyen(b: Bai, i: nat)
    requires i < |b.thuTu| && b.yeuCau == KhongYeuCau() && forall l :: l in b.UngVien(i) ==> MotBuoi(l)
    ensures |b.XepHang(i)| == |b.UngVien(i)|
    ensures forall k :: 0 <= k < |b.UngVien(i)| ==> b.XepHang(i)[k] == (b.UngVien(i)[k], 0)
  {
    var ds := b.UngVien(i);
    var s := ChamDiem(ds, b.thuTu[i].tenMonHoc, b.yeuCau);
    forall k | 0 <= k < |s| ensures s[k] == (ds[k], 0) {
      assert ds[k] in ds;
      ScoreKhong(ds[k], b.thuTu[i].tenMonHoc);
    }
    DaXep(s);
  }

  // ---------------------------------------------------------------- the limit crossed in a short run

  const SO_LOP := 99_998

  /** Course 0 has classes x and y, course 1 has SO_LOP classes that clash with nothing, courses 2 and
      3 have one class each, p and q, which clash with x and with nothing else. */
  ghost predicate BaiSatGioiHan(b: Bai, x: LopHoc, y: LopHoc, p: LopHoc, q: LopHoc) {
    && |b.thuTu| == 4 && (forall i :: 0 <= i < 4 ==> b.Ma(i) == i) && b.yeuCau == KhongYeuCau()
    && b.UngVien(0) == [x, y] && |b.UngVien(1)| == SO_LOP && b.UngVien(2) == [p] && b.UngVien(3) == [q]
    && MotBuoi(x) && MotBuoi(y) && MotBuoi(p) && MotBuoi(q) && (forall l :: l in b.UngVien(1) ==> TuDo(l, x, y, p, q))
    && KhongTrung2(x, y) && TrungNhau(p.lichHocs, x.lichHocs) && TrungNhau(q.lichHocs, x.lichHocs)
    && KhongTrung2(p, y) && KhongTrung2(q, y) && KhongTrung2(q, p)
  }

  ghost predicate KhongTrung2(a: LopHoc, b: LopHoc) { !TrungNhau(a.lichHocs, b.lichHocs) }

  ghost predicate TuDo(l: LopHoc, x: LopHoc, y: LopHoc, p: LopHoc, q: LopHoc) {
    MotBuoi(l) && KhongTrung2(l, x) && KhongTrung2(l, y) && KhongTrung2(p, l) && KhongTrung2(q, l)
  }

  lemma ThuTuBon(b: Bai, x: LopHoc, y: LopHoc, p: LopHoc, q: LopHoc)
    requires BaiSatGioiHan(b, x, y, p, q)
    ensures b.XepHang(0) == [(x, 0), (y, 0)] && b.XepHang(2) == [(p, 0)] && b.XepHang(3) == [(q, 0)]
    ensures |b.XepHang(1)| == SO_LOP
    ensures forall k :: 0 <= k < SO_LOP ==>
              b.XepHang(1)[k] == (b.UngVien(1)[k], 0) && TuDo(b.XepHang(1)[k].0, x, y, p, q)
  {
    ThuTuNguyen(b, 0);
    ThuTuNguyen(b, 1);
    ThuTuNguyen(b, 2);
    ThuTuNguyen(b, 3);
    assert forall k :: 0 <= k < SO_LOP ==> b.UngVien(1)[k] in b.UngVien(1);
  }

  function Trung(b: Bai, i: nat): MonKhongXep
    requires i < |b.thuTu|
  {
    MonKhongXep(b.thuTu[i].tenMonHoc, TrungGio)
  }

  /** A course whose one class clashes costs a node and is left out. */
  lemma MotLopTrung(b: Bai, i: nat, d: BangChon, n: int, lop: LopHoc)
    requires i < |b.thuTu| && n < GIOI_HAN_NUT && b.UngVien(i) != []
    requires |b.XepHang(i)| == 1 && b.XepHang(i)[0].0 == lop && !Hop(lop, d)
    ensures var r, sub := Tim(b, i, d, n), Tim(b, i + 1, d, n + 1);
            r.soNut == sub.soNut && r.kq == ThemDau(sub.kq, b.thuTu[i].tenMonHoc, TrungGio)
  {
    assert ThuLop(b, i, d, 0, n + 1, None) == LanThu(None, n + 1, 0);
  }

  lemma HetMon(b: Bai, d: BangChon, n: int)
    ensures Tim(b, |b.thuTu|, d, n) == Lan(KetQua(d, [], 0), n, 1)
  {
  }

  lemma TrungVoiX(b: Bai, x: LopHoc, y: LopHoc, p: LopHoc, q: LopHoc, d: BangChon)
    requires BaiSatGioiHan(b, x, y, p, q) && 0 in d && d[0] == x
    ensures |b.thuTu| == 4 && !Hop(p, d) && !Hop(q, d) && b.UngVien(2) != [] && b.UngVien(3) != []
    ensures b.XepHang(2) == [(p, 0)] && b.XepHang(3) == [(q, 0)]
  {
    ThuTuBon(b, x, y, p, q);
  }

  /** Beside x neither course 2 nor course 3 fits: two nodes, two courses left out. */
  lemma BenX(b: Bai, x: LopHoc, y: LopHoc, p: LopHoc, q: LopHoc, d: BangChon, n: int)
    requires BaiSatGioiHan(b, x, y, p, q) && n < GIOI_HAN_NUT - 1 && 0 in d && d[0] == x
    ensures var r := Tim(b, 2, d, n); r.soNut == n + 2 && |r.kq.khongXepDuoc| == 2
  {
    TrungVoiX(b, x, y, p, q, d);
    MotLopTrung(b, 2, d, n, p);
    MotLopTrung(b, 3, d, n + 1, q);
    HetMon(b, d, n + 2);
  }

  /** A class whose branch leaves courses out does not end the loop. */
  lemma VongTiep(b: Bai, i: nat, d: BangChon, k: nat, n: int, best: Option<KetQua>, k': nat)
    requires k' == k + 1 && i < |b.thuTu| && k < |b.XepHang(i)| && n <= GIOI_HAN_NUT && Hop(b.XepHang(i)[k].0, d)
    requires var (lop, diem) := b.XepHang(i)[k];
             Giu(best, CongDiem(Tim(b, i + 1, d[b.Ma(i) := lop], n).kq, diem)).khongXepDuoc != []
    ensures var (lop, diem) := b.XepHang(i)[k];
            var sub := Tim(b, i + 1, d[b.Ma(i) := lop], n);
            var tiep := ThuLop(b, i, d, k', sub.soNut, Some(Giu(best, CongDiem(sub.kq, diem))));
            var r := ThuLop(b, i, d, k, n, best);
            r.best == tiep.best && r.soNut == tiep.soNut
  {
  }

  lemma GiuHai(best: Option<KetQua>, kq: KetQua)
    requires (best.Some? ==> |best.value.khongXepDuoc| == 2) && |kq.khongXepDuoc| == 2
    ensures |Giu(best, kq).khongXepDuoc| == 2
  {
  }

  lemma LopTuDoHop(b: Bai, x: LopHoc, y: LopHoc, p: LopHoc, q: LopHoc, k: nat)
    requires BaiSatGioiHan(b, x, y, p, q) && |b.XepHang(1)| == SO_LOP && k < SO_LOP
    ensures b.XepHang(1)[k].1 == 0 && Hop(b.XepHang(1)[k].0, map[0 := x])
  {
    ThuTuBon(b, x, y, p, q);
    assert TuDo(b.XepHang(1)[k].0, x, y, p, q);
  }

  lemma BuocX(b: Bai, x: LopHoc, y: LopHoc, p: LopHoc, q: LopHoc, k: nat, n: int, best: Option<KetQua>,
      k': nat, n': int)
    returns (moi: KetQua)
    requires BaiSatGioiHan(b, x, y, p, q) && |b.XepHang(1)| == SO_LOP && k < SO_LOP && n < GIOI_HAN_NUT - 1
    requires best.Some? ==> |best.value.khongXepDuoc| == 2
    requires k' == k + 1 && n' == n + 2
    ensures |moi.khongXepDuoc| == 2
    ensures var r, tiep := ThuLop(b, 1, map[0 := x], k, n, best), ThuLop(b, 1, map[0 := x], k', n', Some(moi));
            r.best == tiep.best && r.soNut == tiep.soNut
  {
    var lop := b.XepHang(1)[k].0;
    var d := map[0 := x];
    LopTuDoHop(b, x, y, p, q, k);
    BenX(b, x, y, p, q, d[1 := lop], n);
    var kq := CongDiem(Tim(b, 2, d[1 := lop], n).kq, 0);
    moi := Giu(best, kq);
    GiuHai(best, kq);
    VongTiep(b, 1, d, k, n, best, k');
  }

  /** So each of the classes of course 1 costs two nodes, and none of them ends the loop. */
  lemma {:induction false} VongX(
      b: Bai, x: LopHoc, y: LopHoc, p: LopHoc, q: LopHoc, k: nat, n: int, best: Option<KetQua>)
    requires BaiSatGioiHan(b, x, y, p, q) && |b.XepHang(1)| == SO_LOP && k <= SO_LOP && n == 2 + 2 * k
    requires (best.None? ==> k < SO_LOP) && (best.Some? ==> |best.value.khongXepDuoc| == 2)
    ensures var r := ThuLop(b, 1, map[0 := x], k, n, best);
            r.soNut == 2 + 2 * SO_LOP && r.best.Some? && |r.best.value.khongXepDuoc| == 2
    decreases SO_LOP - k
  {
    if k < SO_LOP {
      var k', n' := k + 1, n + 2;
      var moi := BuocX(b, x, y, p, q, k, n, best, k', n');
      VongX(b, x, y, p, q, k', n', Some(moi));
    }
  }

  /** A class whose branch uses the budget up is the last one tried. */
  lemma VongCuoi(b: Bai, i: nat, d: BangChon, k: nat, n: int)
    requires i < |b.thuTu| && k < |b.XepHang(i)| && n <= GIOI_HAN_NUT && Hop(b.XepHang(i)[k].0, d)
    requires Tim(b, i + 1, d[b.Ma(i) := b.XepHang(i)[k].0], n).soNut > GIOI_HAN_NUT
    ensures var (lop, diem) := b.XepHang(i)[k];
            var sub := Tim(b, i + 1, d[b.Ma(i) := lop], n);
            var r := ThuLop(b, i, d, k, n, None);
            r.best == Some(CongDiem(sub.kq, diem)) && r.soNut == sub.soNut
  {
  }

  /** With the counter at the limit a course with a class is left out, whatever the class. */
  lemma TaiGioiHan(b: Bai, i: nat, d: BangChon)
    requires i + 1 == |b.thuTu| && b.UngVien(i) != []
    ensures var r := Tim(b, i, d, GIOI_HAN_NUT);
            r.soNut == GIOI_HAN_NUT + 1 && r.kq == KetQua(d, [Trung(b, i)], 0)
  {
    var n := GIOI_HAN_NUT;
    assert ThuLop(b, i, d, 0, n + 1, None) == LanThu(None, n + 1, 0);
    HetMon(b, d, n + 1);
  }

  /** Beside y everything fits, but course 3 is reached with the counter at the limit. */
  lemma BenY(b: Bai, x: LopHoc, y: LopHoc, p: LopHoc, q: LopHoc)
    requires BaiSatGioiHan(b, x, y, p, q) && |b.XepHang(1)| == SO_LOP
    ensures var r := Tim(b, 1, map[0 := y], GIOI_HAN_NUT - 2);
            && r.kq.khongXepDuoc == [Trung(b, 3)] && r.soNut == GIOI_HAN_NUT + 1
            && r.kq.chon == map[0 := y, 1 := b.XepHang(1)[0].0, 2 := p]
  {
    ThuTuBon(b, x, y, p, q);
    var w := b.XepHang(1)[0].0;
    var d1, d2, d3 := map[0 := y], map[0 := y, 1 := w], map[0 := y, 1 := w, 2 := p];
    var n := GIOI_HAN_NUT;
    assert TuDo(w, x, y, p, q);
    assert Hop(w, d1) && Hop(p, d2) && d1[1 := w] == d2 && d2[2 := p] == d3;
    TaiGioiHan(b, 3, d3);
    VongCuoi(b, 2, d2, 0, n);
    assert Tim(b, 2, d2, n - 1).kq == KetQua(d3, [Trung(b, 3)], 0) && Tim(b, 2, d2, n - 1).soNut == n + 1;
    VongCuoi(b, 1, d1, 0, n - 1);
  }

  /** A fresh run over these four courses reports course 3 as clashing, although its class clashes
      with nothing in the timetable that is returned. */
  lemma WrongReasonAtLimit(b: Bai, x: LopHoc, y: LopHoc, p: LopHoc, q: LopHoc)
    requires BaiSatGioiHan(b, x, y, p, q)
    ensures var kq := Tim(b, 0, map[], 0).kq; kq.khongXepDuoc == [Trung(b, 3)] && Hop(q, kq.chon)
  {
    ThuTuBon(b, x, y, p, q);
    var rong: BangChon := map[];
    var n := GIOI_HAN_NUT - 2;
    VongX(b, x, y, p, q, 0, 2, None);
    var l0 := Tim(b, 1, map[0 := x], 1);
    assert l0.soNut == n && |l0.kq.khongXepDuoc| == 2;
    BenY(b, x, y, p, q);
    var l1 := Tim(b, 1, map[0 := y], n);
    assert rong[0 := x] == map[0 := x] && rong[0 := y] == map[0 := y];
    var k0, k1 := CongDiem(l0.kq, 0), CongDiem(l1.kq, 0);
    assert ThuLop(b, 0, rong, 2, l1.soNut, Some(k1)) == LanThu(Some(k1), l1.soNut, 0);
    assert ThuLop(b, 0, rong, 1, n, Some(k0)).best == Some(k1);
    assert ThuLop(b, 0, rong, 0, 1, None).best == Some(k1);
    assert TuDo(b.XepHang(1)[0].0, x, y, p, q);
  }

  /** Such a problem: x on Monday periods 1 and 2, p on the first and q on the second of them. */
  function BaiCuThe(): Bai {
    Bai([MonVd(0, "A"), MonVd(1, "B"), MonVd(2, "C"), MonVd(3, "D")],
        map[0 := [LopVd(0, 0, 2, 1, 2), LopVd(1, 0, 3, 1, 1)],
            1 := seq(SO_LOP, (i: nat) => LopVd(10 + i, 1, 4, 1, 1)),
            2 := [LopVd(2, 2, 2, 1, 1)], 3 := [LopVd(3, 3, 2, 2, 2)]],
        KhongYeuCau())
  }

  lemma BaiCuTheDung()
    ensures BaiSatGioiHan(BaiCuThe(), LopVd(0, 0, 2, 1, 2), LopVd(1, 0, 3, 1, 1),
                          LopVd(2, 2, 2, 1, 1), LopVd(3, 3, 2, 2, 2))
  {
    var b := BaiCuThe();
    var x, y, p, q := LopVd(0, 0, 2, 1, 2), LopVd(1, 0, 3, 1, 1), LopVd(2, 2, 2, 1, 1), LopVd(3, 3, 2, 2, 2);
    TrungMot(x, y); TrungMot(p, x); TrungMot(q, x); TrungMot(p, y); TrungMot(q, y); TrungMot(q, p);
    forall l | l in b.UngVien(1) ensures TuDo(l, x, y, p, q) {
      TrungMot(l, x); TrungMot(l, y); TrungMot(p, l); TrungMot(q, l);
    }
  }

  /** Four courses and about a hundred thousand classes suffice for a wrong reason in the result. */
  lemma WrongReason()
    ensures var kq := Tim(BaiCuThe(), 0, map[], 0).kq;
            kq.khongXepDuoc == [MonKhongXep("D", TrungGio)] && Hop(LopVd(3, 3, 2, 2, 2), kq.chon)
  {
    BaiCuTheDung();
    WrongReasonAtLimit(BaiCuThe(), LopVd(0, 0, 2, 1, 2), LopVd(1, 0, 3, 1, 1),
                       LopVd(2, 2, 2, 1, 1), LopVd(3, 3, 2, 2, 2));
  }
}
