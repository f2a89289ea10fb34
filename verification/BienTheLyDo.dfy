/** The reasons given with a timetable against all the classes on offer: a run made with banned classes
    states them over what the ban left. */
module BienTheLyDo {
  import opened Collections
  import opened Entities
  import opened XepLich
  import opened XepLichAnToan
  import opened XepLichToiUu
  import opened BienThe
  import opened BienTheSoMon

  // ---------------------------------------------------------------- what true reasons are

  /** No class on offer of a course without one fits the timetable. */
  ghost predicate KhongThemDuoc(b: Bai, chon: BangChon) {
    forall j, l :: 0 <= j < |b.thuTu| && b.Ma(j) !in chon && l in b.UngVien(j) ==> !Hop(l, chon)
  }

  /** The list names exactly the courses without a class, in order. Where it says that no class has a free
      seat none is on offer; where it says that all of them clash, some are and none of them fits. */
  ghost predicate LyDoDuThat(b: Bai, chon: BangChon, kx: seq<MonKhongXep>) {
    kx == LyDoThat(b, 0, chon) && KhongThemDuoc(b, chon)
  }

  // ---------------------------------------------------------------- the lists the run is given

  ghost predicate MaRieng(b: Bai) {
    forall p, q :: 0 <= p < q < |b.thuTu| ==> b.thuTu[p].maMonHoc != b.thuTu[q].maMonHoc
  }

  /** The bans for course i. */
  function Cam(b: Bai, i: nat, bo: set<nat>): LoaiTru
    requires i < |b.thuTu|
  {
    map[b.Ma(i) := bo]
  }

  lemma UngVienConLai(b: Bai, i: nat, bo: set<nat>, j: nat)
    requires i < |b.thuTu| && j < |b.thuTu| && MaRieng(b)
    ensures HanChe(b, Cam(b, i, bo)).UngVien(j) == if j == i then LocLop(b.UngVien(i), bo) else b.UngVien(j)
  {
    assert j != i ==> b.thuTu[i].maMonHoc != b.thuTu[j].maMonHoc;
  }

  /** The ban leaves no class although some are on offer. */
  predicate CamHet(b: Bai, i: nat, bo: set<nat>)
    requires i < |b.thuTu|
  {
    LocLop(b.UngVien(i), bo) == [] && b.UngVien(i) != []
  }

  /** Reasons over the lists left and over all lists differ only for the banned course, and only if
      nothing of it is left. */
  lemma {:induction false} LyDoHaiPhia(b: Bai, i: nat, bo: set<nat>, k: nat, chon: BangChon)
    requires i < |b.thuTu| && k <= |b.thuTu| && MaRieng(b)
    ensures LyDoThat(HanChe(b, Cam(b, i, bo)), k, chon) == LyDoThat(b, k, chon) <==>
            !(k <= i && b.Ma(i) !in chon && CamHet(b, i, bo))
    decreases |b.thuTu| - k
  {
    var h := HanChe(b, Cam(b, i, bo));
    if k < |b.thuTu| {
      UngVienConLai(b, i, bo, k);
      LyDoHaiPhia(b, i, bo, k + 1, chon);
      LyDoBuoc(b, k, chon);
      LyDoBuoc(h, k, chon);
    }
  }

  lemma LyDoBuoc(b: Bai, k: nat, chon: BangChon)
    requires k < |b.thuTu|
    ensures var r, sau := LyDoThat(b, k, chon), LyDoThat(b, k + 1, chon);
            if b.Ma(k) in chon then r == sau
            else r != [] && r[1..] == sau &&
                 r[0] == MonKhongXep(b.thuTu[k].tenMonHoc, if b.UngVien(k) == [] then KhongConLop else TrungGio)
  {
  }

  // ---------------------------------------------------------------- one run

  /** What the run gives, within the limit, measured on the lists it is given. */
  lemma LyDoTrongLan(b: Bai, coDinh: BangChon, loaiTru: LoaiTru)
    requires Rieng(b, 0, coDinh) && TrongGioiHan(b, coDinh, loaiTru)
    ensures var kq := ChayLai(b, coDinh, loaiTru); LyDoDuThat(HanChe(b, loaiTru), kq.chon, kq.khongXepDuoc)
  {
    var h := HanChe(b, loaiTru);
    var kq := ChayLai(b, coDinh, loaiTru);
    assert Rieng(h, 0, coDinh);
    ReasonsTrue(h, 0, coDinh, 0);
    forall j, l | 0 <= j < |h.thuTu| && h.Ma(j) !in kq.chon && l in h.UngVien(j) ensures !Hop(l, kq.chon) {
      NothingFits(h, 0, coDinh, 0, j);
    }
  }

  /** Of a timetable that leaves nothing more to add on the lists left: when is that so on all lists? */
  lemma ThemDuocKhac(b: Bai, i: nat, bo: set<nat>, chon: BangChon)
    requires i < |b.thuTu| && MaRieng(b) && KhongThemDuoc(HanChe(b, Cam(b, i, bo)), chon)
    ensures KhongThemDuoc(b, chon) <==> b.Ma(i) in chon || BiCamKhongVua(b, i, bo, chon)
  {
    var h := HanChe(b, Cam(b, i, bo));
    forall j, l | 0 <= j < |b.thuTu| && b.Ma(j) !in chon && l in b.UngVien(j) && (j != i || l.maLopHocKy !in bo)
      ensures !Hop(l, chon)
    {
      UngVienConLai(b, i, bo, j);
      assert h.Ma(j) == b.Ma(j) && l in h.UngVien(j);
    }
  }

  /** No banned class of the course fits. */
  ghost predicate BiCamKhongVua(b: Bai, i: nat, bo: set<nat>, chon: BangChon)
    requires i < |b.thuTu|
  {
    forall l :: l in b.UngVien(i) && l.maLopHocKy in bo ==> !Hop(l, chon)
  }

  /** A run made with classes of course i banned, within the limit. The reasons are those over all classes
      on offer exactly when the ban does not leave a course without classes that has some. They are true,
      with nothing more to add, exactly when the course is placed, or that holds and no banned class of it
      fits. */
  lemma BannedRunReasons(b: Bai, coDinh: BangChon, i: nat, bo: set<nat>)
    requires i < |b.thuTu| && Rieng(b, 0, coDinh) && TrongGioiHan(b, coDinh, Cam(b, i, bo))
    ensures var kq := ChayLai(b, coDinh, Cam(b, i, bo));
            && (kq.khongXepDuoc == LyDoThat(b, 0, kq.chon) <==> !CamHet(b, i, bo))
            && (LyDoDuThat(b, kq.chon, kq.khongXepDuoc) <==>
                b.Ma(i) in kq.chon || (!CamHet(b, i, bo) && BiCamKhongVua(b, i, bo, kq.chon)))
  {
    var kq := ChayLai(b, coDinh, Cam(b, i, bo));
    LyDoTrongLan(b, coDinh, Cam(b, i, bo));
    LyDoHaiPhia(b, i, bo, 0, kq.chon);
    ThemDuocKhac(b, i, bo, kq.chon);
    XepThiCon(b, coDinh, i, bo);
  }

  /** A course that is placed had a class left. */
  lemma XepThiCon(b: Bai, coDinh: BangChon, i: nat, bo: set<nat>)
    requires i < |b.thuTu| && Rieng(b, 0, coDinh)
    ensures b.Ma(i) in ChayLai(b, coDinh, Cam(b, i, bo)).chon ==> !CamHet(b, i, bo)
  {
    var h := HanChe(b, Cam(b, i, bo));
    var chon := ChayLai(b, coDinh, Cam(b, i, bo)).chon;
    assert Rieng(h, 0, coDinh);
    TimDung(h, 0, coDinh, 0);
    UngVienConLai(b, i, bo, i);
    if b.Ma(i) in chon { assert LopDung(h, i, chon); }
  }

  /** The first run, within the limit: its reasons are true and nothing can be added. */
  lemma FirstRunReasons(b: Bai, coDinh: BangChon)
    requires Rieng(b, 0, coDinh) && TrongGioiHan(b, coDinh, map[])
    ensures var kq := ChayLai(b, coDinh, map[]); LyDoDuThat(b, kq.chon, kq.khongXepDuoc)
  {
    HanCheRong(b);
    LyDoTrongLan(b, coDinh, map[]);
  }

  // ---------------------------------------------------------------- which runs are made

  /** The result was made for course i, with the classes banned that the results before give it. */
  ghost predicate LamChoMon(b: Bai, coDinh: BangChon, truoc: seq<KetQua>, kq: KetQua, i: nat) {
    && i < |b.thuTu| && b.UngVien(i) != [] && DaDung(truoc, b.Ma(i)) != {}
    && kq == ChayLai(b, coDinh, Cam(b, i, DaDung(truoc, b.Ma(i))))
  }

  ghost predicate LanSau(b: Bai, coDinh: BangChon, truoc: seq<KetQua>, kq: KetQua) {
    exists i :: LamChoMon(b, coDinh, truoc, kq, i)
  }

  /** The runs whose results are `ds`: the first without bans, every later one for some course. */
  ghost predicate TuLanChay(b: Bai, coDinh: BangChon, ds: seq<KetQua>) {
    Grown(ds, kq => kq == ChayLai(b, coDinh, map[]), (truoc, kq) => LanSau(b, coDinh, truoc, kq))
  }

  lemma LanChayTai(b: Bai, coDinh: BangChon, ds: seq<KetQua>, g: nat)
    requires TuLanChay(b, coDinh, ds) && g < |ds|
    ensures if g == 0 then ds[0] == ChayLai(b, coDinh, map[]) else LanSau(b, coDinh, ds[..g], ds[g])
  {
    GrownAt(ds, g, kq => kq == ChayLai(b, coDinh, map[]), (truoc, kq) => LanSau(b, coDinh, truoc, kq));
  }

  /** The course is to be placed and has classes on offer. */
  ghost predicate CoLopMon(b: Bai, ma: nat) { exists i: nat :: i < |b.thuTu| && b.Ma(i) == ma && b.UngVien(i) != [] }

  lemma ThemLanChay(b: Bai, coDinh: BangChon, ds: seq<KetQua>, kq: KetQua)
    requires TuLanChay(b, coDinh, ds) && ds != [] && LanSau(b, coDinh, ds, kq)
    ensures TuLanChay(b, coDinh, ds + [kq])
  {
    GrownAppend(ds, kq, k => k == ChayLai(b, coDinh, map[]), (truoc, k) => LanSau(b, coDinh, truoc, k));
  }

  lemma ChayChoMon(b: Bai, coDinh: BangChon, ds: seq<KetQua>, ma: nat)
    requires DaDung(ds, ma) != {} && CoLopMon(b, ma)
    ensures LanSau(b, coDinh, ds, ChayLai(b, coDinh, map[ma := DaDung(ds, ma)]))
  {
    var i: nat :| i < |b.thuTu| && b.Ma(i) == ma && b.UngVien(i) != [];
    assert LamChoMon(b, coDinh, ds, ChayLai(b, coDinh, map[ma := DaDung(ds, ma)]), i);
  }

  /** One round of the loop over the courses. */
  lemma MotVong(b: Bai, coDinh: BangChon, toiDa: int, mons: seq<MonHocCt>, ds: seq<KetQua>) returns (tiep: seq<KetQua>)
    requires mons != [] && |ds| < toiDa
    ensures CacBienThe(b, coDinh, toiDa, mons, ds) == CacBienThe(b, coDinh, toiDa, mons[1..], tiep)
    ensures var ma := mons[0].maMonHoc;
            tiep == ds || (DaDung(ds, ma) != {} && tiep == ds + [ChayLai(b, coDinh, map[ma := DaDung(ds, ma)])])
  {
    var daDung := DaDung(ds, mons[0].maMonHoc);
    tiep := if daDung == {} then ds else ThuVaThem(b, coDinh, toiDa, ds, map[mons[0].maMonHoc := daDung]);
  }

  lemma VongTuLanChay(b: Bai, coDinh: BangChon, toiDa: int, mons: seq<MonHocCt>, ds: seq<KetQua>)
      returns (tiep: seq<KetQua>)
    requires TuLanChay(b, coDinh, ds) && ds != [] && mons != [] && |ds| < toiDa && CoLopMon(b, mons[0].maMonHoc)
    ensures TuLanChay(b, coDinh, tiep) && tiep != []
    ensures CacBienThe(b, coDinh, toiDa, mons, ds) == CacBienThe(b, coDinh, toiDa, mons[1..], tiep)
  {
    tiep := MotVong(b, coDinh, toiDa, mons, ds);
    if tiep != ds {
      var ma := mons[0].maMonHoc;
      ChayChoMon(b, coDinh, ds, ma);
      ThemLanChay(b, coDinh, ds, ChayLai(b, coDinh, map[ma := DaDung(ds, ma)]));
    }
  }

  lemma {:induction false} CacLanSau(b: Bai, coDinh: BangChon, toiDa: int, mons: seq<MonHocCt>, ds: seq<KetQua>)
    requires TuLanChay(b, coDinh, ds) && ds != []
    requires forall m :: m in mons ==> CoLopMon(b, m.maMonHoc)
    ensures TuLanChay(b, coDinh, CacBienThe(b, coDinh, toiDa, mons, ds))
    decreases |mons|
  {
    if mons != [] && |ds| < toiDa {
      assert mons[0] in mons && forall m :: m in mons[1..] ==> m in mons;
      var tiep := VongTuLanChay(b, coDinh, toiDa, mons, ds);
      CacLanSau(b, coDinh, toiDa, mons[1..], tiep);
    }
  }

  lemma {:induction false} NhieuLuaChonTu(b: Bai, mons: seq<MonHocCt>)
    requires forall m :: m in mons ==> m in b.thuTu
    ensures forall m :: m in NhieuLuaChon(b, mons) ==> CoLopMon(b, m.maMonHoc)
  {
    if mons != [] {
      var m := mons[0];
      assert m in b.thuTu && forall x :: x in mons[1..] ==> x in mons;
      NhieuLuaChonTu(b, mons[1..]);
      if m.maMonHoc in b.lopTheoMon && |b.lopTheoMon[m.maMonHoc]| > 1 {
        var i: nat :| i < |b.thuTu| && b.thuTu[i] == m;
        assert b.Ma(i) == m.maMonHoc && b.UngVien(i) != [];
      }
    }
  }

  /** How the timetables come about. */
  lemma VariantsFromRuns(b: Bai, coDinh: BangChon, toiDa: int)
    ensures TuLanChay(b, coDinh, TimNhieu(b, coDinh, toiDa))
  {
    if toiDa >= 1 {
      var dau := ThuVaThem(b, coDinh, toiDa, [], map[]);
      assert dau == [ChayLai(b, coDinh, map[])];
      NhieuLuaChonTu(b, b.thuTu);
      CacLanSau(b, coDinh, toiDa, NhieuLuaChon(b, b.thuTu), dau);
    }
  }
}
