/** The list of unplaced courses shown with a suggestion, against the timetable it is shown with: the fill
    comes after the list and reads all the classes on offer. */
module GoiYLyDo {
  import opened LichHoc
  import opened Entities
  import opened XepLich
  import opened XepLichAnToan
  import opened XepLichToiUu
  import opened BienThe
  import opened BienTheSoMon
  import opened BienTheLyDo
  import opened TuChon
  import opened GoiYDanhSach
  import opened GoiYDeXuat

  // ---------------------------------------------------------------- lists of two timetables

  /** What was placed is placed in both; the second may have more. */
  ghost predicate CungMon(b: Bai, chon: BangChon, sau: BangChon) {
    forall j :: 0 <= j < |b.thuTu| ==> (b.Ma(j) in chon <==> b.Ma(j) in sau)
  }

  ghost predicate ThemMon(b: Bai, chon: BangChon, sau: BangChon) {
    forall j :: 0 <= j < |b.thuTu| && b.Ma(j) in chon ==> b.Ma(j) in sau
  }

  lemma {:induction false} LyDoCungMon(b: Bai, k: nat, chon: BangChon, sau: BangChon)
    requires k <= |b.thuTu| && CungMon(b, chon, sau)
    ensures LyDoThat(b, k, chon) == LyDoThat(b, k, sau)
    decreases |b.thuTu| - k
  {
    if k < |b.thuTu| { LyDoCungMon(b, k + 1, chon, sau); }
  }

  lemma {:induction false} LyDoNgan(b: Bai, k: nat, chon: BangChon, sau: BangChon)
    requires k <= |b.thuTu| && ThemMon(b, chon, sau)
    ensures |TenThieu(b, k, sau)| <= |TenThieu(b, k, chon)|
    ensures |TenThieu(b, k, sau)| == |TenThieu(b, k, chon)| <==>
            forall j :: k <= j < |b.thuTu| && b.Ma(j) in sau ==> b.Ma(j) in chon
    decreases |b.thuTu| - k
  {
    if k < |b.thuTu| { LyDoNgan(b, k + 1, chon, sau); }
  }

  lemma {:induction false} TenCungMon(b: Bai, k: nat, chon: BangChon, sau: BangChon)
    requires k <= |b.thuTu| && CungMon(b, chon, sau)
    ensures TenThieu(b, k, chon) == TenThieu(b, k, sau)
    decreases |b.thuTu| - k
  {
    if k < |b.thuTu| { TenCungMon(b, k + 1, chon, sau); }
  }

  lemma TenBuoc(b: Bai, k: nat, chon: BangChon)
    requires k < |b.thuTu|
    ensures TenThieu(b, k, chon) ==
            if b.Ma(k) in chon then TenThieu(b, k + 1, chon) else [b.thuTu[k].tenMonHoc] + TenThieu(b, k + 1, chon)
  {
  }

  lemma {:induction false} TenLyDo(b: Bai, k: nat, chon: BangChon)
    requires k <= |b.thuTu|
    ensures Ten(LyDoThat(b, k, chon)) == TenThieu(b, k, chon)
    decreases |b.thuTu| - k
  {
    if k < |b.thuTu| {
      TenLyDo(b, k + 1, chon);
      LyDoBuoc(b, k, chon);
      TenBuoc(b, k, chon);
    }
  }

  /** A longer timetable keeps out what did not fit. */
  lemma KhongThemDuocSau(b: Bai, chon: BangChon, sau: BangChon)
    requires KhongThemDuoc(b, chon) && MoRong(chon, sau) && CungMon(b, chon, sau)
    ensures KhongThemDuoc(b, sau)
  {
    forall j, l | 0 <= j < |b.thuTu| && b.Ma(j) !in sau && l in b.UngVien(j) ensures !Hop(l, sau) {
      assert b.Ma(j) !in chon && !Hop(l, chon);
    }
  }

  lemma LyDoGiu(b: Bai, chon: BangChon, sau: BangChon, kx: seq<MonKhongXep>)
    requires LyDoDuThat(b, chon, kx) && MoRong(chon, sau) && CungMon(b, chon, sau)
    ensures LyDoDuThat(b, sau, kx)
  {
    LyDoCungMon(b, 0, chon, sau);
    KhongThemDuocSau(b, chon, sau);
  }

  /** The same of reasons that are true on the lists left by a ban: when are they true on all lists? */
  lemma LyDoGiuCam(b: Bai, i: nat, bo: set<nat>, chon: BangChon, sau: BangChon, kx: seq<MonKhongXep>)
    requires i < |b.thuTu| && MaRieng(b) && LyDoDuThat(HanChe(b, Cam(b, i, bo)), chon, kx)
    requires MoRong(chon, sau) && CungMon(b, chon, sau) && (b.Ma(i) in chon ==> !CamHet(b, i, bo))
    ensures LyDoDuThat(b, sau, kx) <==> b.Ma(i) in chon || (!CamHet(b, i, bo) && BiCamKhongVua(b, i, bo, sau))
  {
    var h := HanChe(b, Cam(b, i, bo));
    forall j | 0 <= j < |h.thuTu| ensures h.Ma(j) in chon <==> h.Ma(j) in sau {
      assert b.Ma(j) in chon <==> b.Ma(j) in sau;
    }
    LyDoGiu(h, chon, sau, kx);
    LyDoHaiPhia(b, i, bo, 0, sau);
    ThemDuocKhac(b, i, bo, sau);
  }

  // ---------------------------------------------------------------- the fill

  /** The electives the fill goes through, in its order. */
  function UngVienCua(v: DauVao, kq: KetQua): seq<MonHocCt> {
    UngVienTuChon(v.ct, v.yeuCau, v.lops, v.daDangKy, kq.chon,
                  CanXep(v.ct, v.yeuCau, v.lops, v.daDangKy, v.kyDat).1, v.kyDat)
  }

  /** The fill of a suggestion: it takes a class on offer that fits the solver's timetable. */
  lemma DienCua(v: DauVao, kq: KetQua)
    requires DauVaoDung(v)
    ensures var u, chon := UngVienCua(v, kq), XayDungKetQua(v, kq).chon;
            && MonRieng(u, kq.chon) && chon == Dien(u, v.lops, v.yeuCau, v.yeuCau.soMonTuChonBatKy, kq.chon).0
            && MoRong(kq.chon, chon) && NguonDung(u, v.lops, kq.chon, chon) && MoiKhongTrung(kq.chon, chon)
  {
    UngVienDung(v, kq.chon);
    FillSound(UngVienCua(v, kq), v.lops, v.yeuCau, v.yeuCau.soMonTuChonBatKy, kq.chon);
  }

  lemma DienVua(v: DauVao, kq: KetQua, k: nat)
    requires DauVaoDung(v) && k in XayDungKetQua(v, kq).chon && k !in kq.chon
    ensures var l := XayDungKetQua(v, kq).chon[k]; k in v.lops && l in v.lops[k] && Hop(l, kq.chon)
  {
    DienCua(v, kq);
    var chon := XayDungKetQua(v, kq).chon;
    forall m | m in kq.chon ensures !TrungNhau(chon[k].lichHocs, kq.chon[m].lichHocs) {
      assert chon[m] == kq.chon[m];
    }
  }

  lemma DienVuaMon(v: DauVao, kq: KetQua, j: nat)
    requires DauVaoDung(v) && j < |BaiCua(v).thuTu|
    requires BaiCua(v).Ma(j) in XayDungKetQua(v, kq).chon && BaiCua(v).Ma(j) !in kq.chon
    ensures var l := XayDungKetQua(v, kq).chon[BaiCua(v).Ma(j)]; l in BaiCua(v).UngVien(j) && Hop(l, kq.chon)
  {
    DienVua(v, kq, BaiCua(v).Ma(j));
  }

  /** Elective p of the fill's list stands in the list to place, and its turn ends with a class. */
  ghost predicate TraLai(v: DauVao, kq: KetQua, p: nat) {
    var u := UngVienCua(v, kq);
    && p < |u| && u[p].maMonHoc in MaTu(BaiCua(v), 0)
    && DenLuot(u, v.lops, v.yeuCau, v.yeuCau.soMonTuChonBatKy, kq.chon, p)
  }

  lemma TraLaiCo(v: DauVao, kq: KetQua, p: nat) returns (j: nat)
    requires DauVaoDung(v) && TraLai(v, kq, p)
    ensures var b := BaiCua(v);
            j < |b.thuTu| && b.Ma(j) in XayDungKetQua(v, kq).chon && b.Ma(j) !in kq.chon
  {
    var b, u := BaiCua(v), UngVienCua(v, kq);
    DienCua(v, kq);
    FillTakesExact(u, v.lops, v.yeuCau, v.yeuCau.soMonTuChonBatKy, kq.chon, p);
    j :| j < |b.thuTu| && b.thuTu[j].maMonHoc == u[p].maMonHoc;
  }

  lemma CoTraLai(v: DauVao, kq: KetQua, j: nat) returns (p: nat)
    requires DauVaoDung(v) && j < |BaiCua(v).thuTu|
    requires BaiCua(v).Ma(j) in XayDungKetQua(v, kq).chon && BaiCua(v).Ma(j) !in kq.chon
    ensures TraLai(v, kq, p)
  {
    var u := UngVienCua(v, kq);
    DienCua(v, kq);
    p :| p < |u| && u[p].maMonHoc == BaiCua(v).Ma(j);
    FillTakesExact(u, v.lops, v.yeuCau, v.yeuCau.soMonTuChonBatKy, kq.chon, p);
  }

  lemma TraLaiNghia(v: DauVao, kq: KetQua)
    requires DauVaoDung(v)
    ensures var b, chon := BaiCua(v), XayDungKetQua(v, kq).chon;
            (exists p: nat :: TraLai(v, kq, p)) <==>
            exists j: nat :: j < |b.thuTu| && b.Ma(j) in chon && b.Ma(j) !in kq.chon
  {
    var b, chon := BaiCua(v), XayDungKetQua(v, kq).chon;
    if p: nat :| TraLai(v, kq, p) { var j := TraLaiCo(v, kq, p); }
    if j: nat :| j < |b.thuTu| && b.Ma(j) in chon && b.Ma(j) !in kq.chon { var p := CoTraLai(v, kq, j); }
  }

  lemma DanhSachSauDien(v: DauVao, kq: KetQua)
    requires DauVaoDung(v) && Ten(kq.khongXepDuoc) == TenThieu(BaiCua(v), 0, kq.chon)
    ensures var dx := XayDungKetQua(v, kq);
            Ten(dx.khongXepDuoc) == TenThieu(BaiCua(v), 0, dx.chon) <==> !exists p: nat :: TraLai(v, kq, p)
  {
    var b, chon := BaiCua(v), XayDungKetQua(v, kq).chon;
    DienCua(v, kq);
    TraLaiNghia(v, kq);
    LyDoNgan(b, 0, kq.chon, chon);
    if !exists p: nat :: TraLai(v, kq, p) { TenCungMon(b, 0, kq.chon, chon); }
  }

  /** A suggestion's list names the courses that its timetable lacks exactly when the fill puts back no
      course that was to be placed: no elective of the solver's list, left out by it, comes to its turn with
      a class that fits while fewer than asked for have been added. */
  lemma UnplacedListExact(v: DauVao, g: nat)
    requires DauVaoDung(v) && g < |GoiY(v)|
    ensures var kqs, dx := TimNhieu(BaiCua(v), v.coDinh, SO_LUONG_GOI_Y), GoiY(v)[g];
            && |kqs| == |GoiY(v)|
            && (Ten(dx.khongXepDuoc) == TenThieu(BaiCua(v), 0, dx.chon) <==> !exists p: nat :: TraLai(v, kqs[g], p))
  {
    SolverInputDistinct(v);
    VariantsSound(BaiCua(v), v.coDinh, SO_LUONG_GOI_Y);
    DanhSachSauDien(v, TimNhieu(BaiCua(v), v.coDinh, SO_LUONG_GOI_Y)[g]);
  }

  // ---------------------------------------------------------------- reasons

  /** Where nothing could be added on the lists left by a ban, only the banned course can be put back, and
      in a banned class. */
  lemma ChiTraMonCam(v: DauVao, kq: KetQua, i: nat, bo: set<nat>, j: nat)
    requires DauVaoDung(v) && i < |BaiCua(v).thuTu| && j < |BaiCua(v).thuTu|
    requires KhongThemDuoc(HanChe(BaiCua(v), Cam(BaiCua(v), i, bo)), kq.chon)
    ensures var b, chon := BaiCua(v), XayDungKetQua(v, kq).chon;
            b.Ma(j) in chon && b.Ma(j) !in kq.chon ==> j == i && chon[b.Ma(j)].maLopHocKy in bo
  {
    var b, chon := BaiCua(v), XayDungKetQua(v, kq).chon;
    if b.Ma(j) in chon && b.Ma(j) !in kq.chon {
      DienVua(v, kq, b.Ma(j));
      SolverInputDistinct(v);
      UngVienConLai(b, i, bo, j);
      var h := HanChe(b, Cam(b, i, bo));
      assert h.Ma(j) == b.Ma(j) && chon[b.Ma(j)] in b.UngVien(j);
      assert chon[b.Ma(j)] !in h.UngVien(j);
    }
  }

  /** The fill puts the banned course back. */
  predicate TraMonCam(v: DauVao, kq: KetQua, i: nat)
    requires i < |BaiCua(v).thuTu|
  {
    BaiCua(v).Ma(i) !in kq.chon && BaiCua(v).Ma(i) in XayDungKetQua(v, kq).chon
  }

  lemma TraThiSai(v: DauVao, kq: KetQua, i: nat)
    requires DauVaoDung(v) && i < |BaiCua(v).thuTu| && TraMonCam(v, kq, i)
    requires Ten(kq.khongXepDuoc) == TenThieu(BaiCua(v), 0, kq.chon)
    ensures var dx := XayDungKetQua(v, kq); !LyDoDuThat(BaiCua(v), dx.chon, dx.khongXepDuoc)
  {
    var b, dx := BaiCua(v), XayDungKetQua(v, kq);
    DienCua(v, kq);
    LyDoNgan(b, 0, kq.chon, dx.chon);
    TenLyDo(b, 0, dx.chon);
  }

  lemma CungMonSauDien(v: DauVao, kq: KetQua, i: nat, bo: set<nat>)
    requires DauVaoDung(v) && i < |BaiCua(v).thuTu| && !TraMonCam(v, kq, i)
    requires KhongThemDuoc(HanChe(BaiCua(v), Cam(BaiCua(v), i, bo)), kq.chon)
    ensures var b, chon := BaiCua(v), XayDungKetQua(v, kq).chon;
            MaRieng(b) && MoRong(kq.chon, chon) && CungMon(b, kq.chon, chon)
  {
    var b, chon := BaiCua(v), XayDungKetQua(v, kq).chon;
    SolverInputDistinct(v);
    DienCua(v, kq);
    forall j | 0 <= j < |b.thuTu| ensures b.Ma(j) in kq.chon <==> b.Ma(j) in chon { ChiTraMonCam(v, kq, i, bo, j); }
  }

  /** What a suggestion shows, from a result whose reasons are true on the lists left by a ban. */
  lemma LyDoSauDien(v: DauVao, kq: KetQua, i: nat, bo: set<nat>)
    requires DauVaoDung(v) && i < |BaiCua(v).thuTu|
    requires LyDoDuThat(HanChe(BaiCua(v), Cam(BaiCua(v), i, bo)), kq.chon, kq.khongXepDuoc)
    requires Ten(kq.khongXepDuoc) == TenThieu(BaiCua(v), 0, kq.chon)
    requires BaiCua(v).Ma(i) in kq.chon ==> !CamHet(BaiCua(v), i, bo)
    ensures var b, dx := BaiCua(v), XayDungKetQua(v, kq);
            LyDoDuThat(b, dx.chon, dx.khongXepDuoc) <==>
            b.Ma(i) in kq.chon || (b.Ma(i) !in dx.chon && !CamHet(b, i, bo) && BiCamKhongVua(b, i, bo, dx.chon))
  {
    var b, dx := BaiCua(v), XayDungKetQua(v, kq);
    if TraMonCam(v, kq, i) {
      TraThiSai(v, kq, i);
    } else {
      CungMonSauDien(v, kq, i, bo);
      LyDoGiuCam(b, i, bo, kq.chon, dx.chon, kq.khongXepDuoc);
    }
  }

  /** A suggestion made from a run with classes of course i banned, within the limit. */
  lemma BannedSuggestionReasons(v: DauVao, kq: KetQua, i: nat, bo: set<nat>)
    requires DauVaoDung(v) && i < |BaiCua(v).thuTu|
    requires TrongGioiHan(BaiCua(v), v.coDinh, Cam(BaiCua(v), i, bo))
    requires kq == ChayLai(BaiCua(v), v.coDinh, Cam(BaiCua(v), i, bo))
    ensures var b, dx := BaiCua(v), XayDungKetQua(v, kq);
            LyDoDuThat(b, dx.chon, dx.khongXepDuoc) <==>
            b.Ma(i) in kq.chon || (b.Ma(i) !in dx.chon && !CamHet(b, i, bo) && BiCamKhongVua(b, i, bo, dx.chon))
  {
    var b := BaiCua(v);
    SolverInputDistinct(v);
    LyDoTrongLan(b, v.coDinh, Cam(b, i, bo));
    ChayLaiDung(b, v.coDinh, Cam(b, i, bo));
    XepThiCon(b, v.coDinh, i, bo);
    LyDoSauDien(v, kq, i, bo);
  }

  lemma LyDoDienDau(v: DauVao, kq: KetQua)
    requires DauVaoDung(v) && LyDoDuThat(BaiCua(v), kq.chon, kq.khongXepDuoc)
    ensures var dx := XayDungKetQua(v, kq); LyDoDuThat(BaiCua(v), dx.chon, dx.khongXepDuoc)
  {
    var b, dx := BaiCua(v), XayDungKetQua(v, kq);
    CungMonKhiHet(v, kq);
    LyDoGiu(b, kq.chon, dx.chon, kq.khongXepDuoc);
  }

  lemma CungMonKhiHet(v: DauVao, kq: KetQua)
    requires DauVaoDung(v) && KhongThemDuoc(BaiCua(v), kq.chon)
    ensures var chon := XayDungKetQua(v, kq).chon; MoRong(kq.chon, chon) && CungMon(BaiCua(v), kq.chon, chon)
  {
    var b, chon := BaiCua(v), XayDungKetQua(v, kq).chon;
    DienCua(v, kq);
    forall j | 0 <= j < |b.thuTu| ensures b.Ma(j) in kq.chon <==> b.Ma(j) in chon {
      if b.Ma(j) in chon && b.Ma(j) !in kq.chon { DienVuaMon(v, kq, j); }
    }
  }

  /** The first suggestion, if its run ends within the limit: the list is that of the timetable it is shown
      with, every reason is true, and no class of a listed course could be added. */
  lemma FirstSuggestionReasons(v: DauVao)
    requires DauVaoDung(v) && TrongGioiHan(BaiCua(v), v.coDinh, map[])
    ensures GoiY(v) != [] && LyDoDuThat(BaiCua(v), GoiY(v)[0].chon, GoiY(v)[0].khongXepDuoc)
  {
    var b := BaiCua(v);
    SolverInputDistinct(v);
    VariantsSound(b, v.coDinh, SO_LUONG_GOI_Y);
    HanCheRong(b);
    FirstRunReasons(b, v.coDinh);
    LyDoDienDau(v, ChayLai(b, v.coDinh, map[]));
  }

  /** Each later suggestion was made for some course i, with the classes banned that the results before it
      give the course. If its run ends within the limit its reasons are true, with nothing to add, exactly
      when the run places the course; or the fill does not put it back, the ban leaves it some class, and no
      banned class of it fits the timetable shown. */
  lemma LaterSuggestionReasons(v: DauVao, g: nat) returns (i: nat)
    requires DauVaoDung(v) && 1 <= g < |GoiY(v)|
    ensures var b := BaiCua(v);
            var kqs, dx := TimNhieu(b, v.coDinh, SO_LUONG_GOI_Y), GoiY(v)[g];
            && |kqs| == |GoiY(v)| && dx == XayDungKetQua(v, kqs[g]) && LamChoMon(b, v.coDinh, kqs[..g], kqs[g], i)
            && (TrongGioiHan(b, v.coDinh, Cam(b, i, DaDung(kqs[..g], b.Ma(i)))) ==>
                  var bo := DaDung(kqs[..g], b.Ma(i));
                  LyDoDuThat(b, dx.chon, dx.khongXepDuoc) <==>
                  b.Ma(i) in kqs[g].chon ||
                  (b.Ma(i) !in dx.chon && !CamHet(b, i, bo) && BiCamKhongVua(b, i, bo, dx.chon)))
  {
    var b := BaiCua(v);
    var kqs := TimNhieu(b, v.coDinh, SO_LUONG_GOI_Y);
    VariantsFromRuns(b, v.coDinh, SO_LUONG_GOI_Y);
    LanChayTai(b, v.coDinh, kqs, g);
    i :| LamChoMon(b, v.coDinh, kqs[..g], kqs[g], i);
    var bo := DaDung(kqs[..g], b.Ma(i));
    if TrongGioiHan(b, v.coDinh, Cam(b, i, bo)) { BannedSuggestionReasons(v, kqs[g], i, bo); }
  }
}
