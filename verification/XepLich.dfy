/** The timetable search as a function of its arguments and of the node counter, and the
    reference it approximates when no budget is imposed. */
module XepLich {
  import opened Wrappers
  import opened Collections
  import opened LichHoc
  import opened Entities
  import opened Scoring

  const GIOI_HAN_NUT := 200_000

  type BangChon = map<nat, LopHoc>

  /** One problem: the courses in solving order, the classes with free seats, the request. */
  datatype Bai = Bai(thuTu: seq<MonHocCt>, lopTheoMon: map<nat, seq<LopHoc>>, yeuCau: YeuCau) {
    function Ma(i: nat): nat requires i < |thuTu| { thuTu[i].maMonHoc }

    function UngVien(i: nat): seq<LopHoc>
      requires i < |thuTu|
    {
      if Ma(i) in lopTheoMon then lopTheoMon[Ma(i)] else []
    }

    /** The classes of course i with their scores, best first, ties in the offered order. */
    function XepHang(i: nat): seq<(LopHoc, int)>
      requires i < |thuTu|
    {
      StableDescending(ChamDiem(UngVien(i), thuTu[i].tenMonHoc, yeuCau))
    }
  }

  function ChamDiem(ds: seq<LopHoc>, tenMonHoc: string, c: YeuCau): (r: seq<(LopHoc, int)>)
    ensures |r| == |ds|
    ensures forall k :: 0 <= k < |ds| ==> r[k] == (ds[k], Score(ds[k], tenMonHoc, c))
  {
    if ds == [] then [] else [(ds[0], Score(ds[0], tenMonHoc, c))] + ChamDiem(ds[1..], tenMonHoc, c)
  }

  datatype LyDo = KhongConLop | TrungGio | VuotGioiHan
  datatype MonKhongXep = MonKhongXep(tenMonHoc: string, lyDo: LyDo)
  datatype KetQua = KetQua(chon: BangChon, khongXepDuoc: seq<MonKhongXep>, tongDiem: int)

  /** No chosen class overlaps this one. */
  predicate Hop(lop: LopHoc, daChon: BangChon) {
    forall k :: k in daChon ==> !TrungNhau(lop.lichHocs, daChon[k].lichHocs)
  }

  function ThemDau(kq: KetQua, tenMonHoc: string, lyDo: LyDo): KetQua {
    kq.(khongXepDuoc := [MonKhongXep(tenMonHoc, lyDo)] + kq.khongXepDuoc)
  }

  function CongDiem(kq: KetQua, diem: int): KetQua { kq.(tongDiem := kq.tongDiem + diem) }

  predicate TotHon(a: KetQua, b: KetQua) {
    || |a.khongXepDuoc| < |b.khongXepDuoc|
    || (|a.khongXepDuoc| == |b.khongXepDuoc| && a.tongDiem > b.tongDiem)
  }

  function Giu(best: Option<KetQua>, kq: KetQua): KetQua {
    if best.None? || TotHon(kq, best.value) then kq else best.value
  }

  function CatNgang(b: Bai, i: nat): seq<MonKhongXep>
    requires i <= |b.thuTu|
    decreases |b.thuTu| - i
  {
    if i == |b.thuTu| then []
    else [MonKhongXep(b.thuTu[i].tenMonHoc, VuotGioiHan)] + CatNgang(b, i + 1)
  }

  // ---------------------------------------------------------------- the search with its budget

  /** Result of one call: what it returns, the node counter afterwards, and how many calls of the
      search it took, itself included. */
  datatype Lan = Lan(kq: KetQua, soNut: int, soLanGoi: nat)
  datatype LanThu = LanThu(best: Option<KetQua>, soNut: int, soLanGoi: nat)

  function Tim(b: Bai, i: nat, daChon: BangChon, n: int): Lan
    requires i <= |b.thuTu|
    decreases |b.thuTu| - i, 1, 0
  {
    if i == |b.thuTu| then Lan(KetQua(daChon, [], 0), n, 1)
    else if n > GIOI_HAN_NUT then Lan(KetQua(daChon, CatNgang(b, i), 0), n, 1)
    else if b.UngVien(i) == [] then
      var sub := Tim(b, i + 1, daChon, n + 1);
      Lan(ThemDau(sub.kq, b.thuTu[i].tenMonHoc, KhongConLop), sub.soNut, 1 + sub.soLanGoi)
    else
      var thu := ThuLop(b, i, daChon, 0, n + 1, None);
      if thu.best.Some? then Lan(thu.best.value, thu.soNut, 1 + thu.soLanGoi)
      else
        var sub := Tim(b, i + 1, daChon, thu.soNut);
        Lan(ThemDau(sub.kq, b.thuTu[i].tenMonHoc, TrungGio), sub.soNut, 1 + thu.soLanGoi + sub.soLanGoi)
  }

  /** The loop over the ranked classes of course i, from rank k on. */
  function ThuLop(b: Bai, i: nat, daChon: BangChon, k: nat, n: int, best: Option<KetQua>): LanThu
    requires i < |b.thuTu| && k <= |b.XepHang(i)|
    decreases |b.thuTu| - i, 0, |b.XepHang(i)| - k
  {
    var ds := b.XepHang(i);
    if k == |ds| || n > GIOI_HAN_NUT then LanThu(best, n, 0)
    else if !Hop(ds[k].0, daChon) then ThuLop(b, i, daChon, k + 1, n, best)
    else
      var sub := Tim(b, i + 1, daChon[b.Ma(i) := ds[k].0], n);
      var moi := Giu(best, CongDiem(sub.kq, ds[k].1));
      if moi.khongXepDuoc == [] then LanThu(Some(moi), sub.soNut, sub.soLanGoi)
      else
        var tiep := ThuLop(b, i, daChon, k + 1, sub.soNut, Some(moi));
        LanThu(tiep.best, tiep.soNut, sub.soLanGoi + tiep.soLanGoi)
  }

  /** One round of the loop. */
  lemma ThuLopBuoc(b: Bai, i: nat, daChon: BangChon, k: nat, n: int, best: Option<KetQua>)
    requires i < |b.thuTu| && k < |b.XepHang(i)| && n <= GIOI_HAN_NUT
    ensures var (lop, diem) := b.XepHang(i)[k];
            ThuLop(b, i, daChon, k, n, best) ==
            if !Hop(lop, daChon) then ThuLop(b, i, daChon, k + 1, n, best)
            else
              var sub := Tim(b, i + 1, daChon[b.Ma(i) := lop], n);
              var moi := Giu(best, CongDiem(sub.kq, diem));
              if moi.khongXepDuoc == [] then LanThu(Some(moi), sub.soNut, sub.soLanGoi)
              else
                var tiep := ThuLop(b, i, daChon, k + 1, sub.soNut, Some(moi));
                LanThu(tiep.best, tiep.soNut, sub.soLanGoi + tiep.soLanGoi)
  {
  }

  // ---------------------------------------------------------------- the reference: no budget, no counter

  /** The compatible classes of course i are compared by what their branches give; a course is left out
      only when all of its classes clash with what was chosen before. */
  function Giai(b: Bai, i: nat, daChon: BangChon): KetQua
    requires i <= |b.thuTu|
    decreases |b.thuTu| - i, 1, 0
  {
    if i == |b.thuTu| then KetQua(daChon, [], 0)
    else if b.UngVien(i) == [] then ThemDau(Giai(b, i + 1, daChon), b.thuTu[i].tenMonHoc, KhongConLop)
    else
      match TotNhat(b, i, daChon, |b.XepHang(i)|)
      case Some(kq) => kq
      case None => ThemDau(Giai(b, i + 1, daChon), b.thuTu[i].tenMonHoc, TrungGio)
  }

  /** The best branch among the first k ranked classes. Once a branch places every course no later
      one replaces it. */
  function TotNhat(b: Bai, i: nat, daChon: BangChon, k: nat): Option<KetQua>
    requires i < |b.thuTu| && k <= |b.XepHang(i)|
    decreases |b.thuTu| - i, 0, k
  {
    if k == 0 then None
    else
      var truoc := TotNhat(b, i, daChon, k - 1);
      if !Hop(b.XepHang(i)[k - 1].0, daChon) then truoc
      else if truoc.Some? && truoc.value.khongXepDuoc == [] then truoc
      else Some(Giu(truoc, Nhanh(b, i, daChon, k - 1)))
  }

  /** The branch of course i that takes the class of rank r. */
  function Nhanh(b: Bai, i: nat, daChon: BangChon, r: nat): KetQua
    requires i < |b.thuTu| && r < |b.XepHang(i)|
    decreases |b.thuTu| - i, 0, 0
  {
    CongDiem(Giai(b, i + 1, daChon[b.Ma(i) := b.XepHang(i)[r].0]), b.XepHang(i)[r].1)
  }

  // ---------------------------------------------------------------- the ranking

  lemma XepDs(ds: seq<LopHoc>, ten: string, c: YeuCau)
    ensures var t := StableDescending(ChamDiem(ds, ten, c));
            && |t| == |ds| && Descending(t)
            && (forall r :: 0 <= r < |t| ==> t[r].0 in ds && t[r].1 == Score(t[r].0, ten, c))
            && forall l :: l in ds ==> exists r :: 0 <= r < |t| && t[r].0 == l
  {
    var s := ChamDiem(ds, ten, c);
    var t := StableDescending(s);
    StableDescendingSorts(s);
    assert |multiset(s)| == |multiset(t)|;
    forall r | 0 <= r < |t| ensures t[r].0 in ds && t[r].1 == Score(t[r].0, ten, c) {
      assert t[r] in multiset(s);
    }
    forall l | l in ds ensures exists r :: 0 <= r < |t| && t[r].0 == l {
      var k :| 0 <= k < |ds| && ds[k] == l;
      assert s[k] in multiset(t);
    }
  }

  /** The ranking is a permutation of the offered classes, best score first. */
  lemma RankingSorts(b: Bai, i: nat)
    requires i < |b.thuTu|
    ensures |b.XepHang(i)| == |b.UngVien(i)|
    ensures Descending(b.XepHang(i))
    ensures forall r :: 0 <= r < |b.XepHang(i)| ==>
              b.XepHang(i)[r].0 in b.UngVien(i) &&
              b.XepHang(i)[r].1 == Score(b.XepHang(i)[r].0, b.thuTu[i].tenMonHoc, b.yeuCau)
    ensures forall l :: l in b.UngVien(i) ==> exists r :: 0 <= r < |b.XepHang(i)| && b.XepHang(i)[r].0 == l
  {
    XepDs(b.UngVien(i), b.thuTu[i].tenMonHoc, b.yeuCau);
  }

  /** Of two offered classes at the same times, one whose lecturer the student wants to avoid and one whose
      lecturer not, the second is ranked first. */
  lemma AvoidedRankedLater(b: Bai, i: nat, r: nat, s: nat)
    requires i < |b.thuTu| && r < |b.XepHang(i)| && s < |b.XepHang(i)|
    requires var (x, y), ten := (b.XepHang(i)[r].0, b.XepHang(i)[s].0), b.thuTu[i].tenMonHoc;
             CungKhung(x.lichHocs, y.lichHocs) && MuonTranh(x, b.yeuCau, ten) && !MuonTranh(y, b.yeuCau, ten)
    ensures s < r
  {
    RankingSorts(b, i);
    AvoidedScoresLess(b.XepHang(i)[r].0, b.XepHang(i)[s].0, b.thuTu[i].tenMonHoc, b.yeuCau);
    HigherKeyFirst(b.XepHang(i), s, r);
  }

  lemma RankingSize(b: Bai, i: nat)
    requires i < |b.thuTu|
    ensures |b.XepHang(i)| == |b.UngVien(i)|
  {
    RankingSorts(b, i);
  }
}
