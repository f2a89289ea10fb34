/** Every suggestion built from the solver's results is sound with respect to the tables. */
module GoiYDeXuat {
  import opened LichHoc
  import opened Entities
  import opened XepLich
  import opened XepLichAnToan
  import opened BienThe
  import opened TuChon
  import opened CoSoDuLieu
  import opened ChuongTrinh
  import opened GoiYDanhSach
  import opened GoiYAnToan

  // ---------------------------------------------------------------- the solver's input

  /** Curriculum courses are distinct, and the fixed classes are those of the registered courses. */
  ghost predicate DauVaoDung(v: DauVao) { KhongLap(v.ct) && v.coDinh.Keys == v.daDangKy }

  lemma LapDauVaoDung(dm: DanhMuc, db: Db, sv: nat, hk: nat, c: YeuCau, nhac: string -> bool)
    requires sv in dm.sinhViens && hk in dm.hocKys && KhungDung(dm, KhungCua(dm, dm.sinhViens[sv]))
    ensures DauVaoDung(LapDauVao(dm, db, sv, hk, c, nhac))
  {
  }

  function TenMuon(v: DauVao): seq<string> { v.yeuCau.monTuChonMuonHoc + v.yeuCau.monCanHocLai }

  /** Asked for by name as an elective or a retake, and not done with. */
  ghost predicate NeuTen(v: DauVao, m: MonHocCt) {
    DuocNeu(v.ct, v.yeuCau, TenMuon(v), m) && (m.trangThai != DaDat || m.caiThien)
  }

  lemma CanXepLayTu(v: DauVao)
    requires DauVaoDung(v)
    ensures var ms := CanXep(v.ct, v.yeuCau, v.lops, v.daDangKy, v.kyDat).0;
            && LayTu(ms, v.ct) && (forall m :: m in ms ==> m.maMonHoc !in v.daDangKy)
            && (forall m :: m in ms ==> m.coTheDangKy || NeuTen(v, m))
  {
    var dau := BatBuocCanXep(v.ct, v.yeuCau, v.kyDat);
    BatBuocLayTu(v.ct, v.yeuCau, v.kyDat);
    ThemTheoTenLayTu(dau, v.ct, v.yeuCau, v.lops, TenMuon(v));
    var them := ThemTheoTen(dau, v.ct, v.yeuCau, v.lops, TenMuon(v));
    forall m | m in them ensures m.coTheDangKy || NeuTen(v, m) {
      ThemTheoTenNguon(dau, v.ct, v.yeuCau, v.lops, TenMuon(v), m);
    }
    BoTheoTenLayTu(them, [], v.yeuCau, v.yeuCau.monKhongMuonHoc, v.ct);
    BoMaLayTu(BoTheoTen(them, [], v.yeuCau, v.yeuCau.monKhongMuonHoc).0, v.daDangKy, v.ct);
  }

  /** The solver's precondition holds for every request. */
  lemma SolverInputDistinct(v: DauVao)
    requires DauVaoDung(v)
    ensures Rieng(BaiCua(v), 0, v.coDinh)
    ensures forall m :: m in BaiCua(v).thuTu ==> m in v.ct && (m.coTheDangKy || NeuTen(v, m))
  {
    var ms := CanXep(v.ct, v.yeuCau, v.lops, v.daDangKy, v.kyDat).0;
    CanXepLayTu(v);
    BaTangHoanVi(ms, v.yeuCau, v.lops);
    var t := BaiCua(v).thuTu;
    forall p | 0 <= p < |t| ensures t[p].maMonHoc !in v.coDinh {
      assert t[p] in ms;
    }
  }

  // ---------------------------------------------------------------- the suggestions

  ghost predicate MonMoi(v: DauVao, k: nat, l: LopHoc) {
    k in v.lops && l in v.lops[k] && k !in v.daDangKy &&
    exists m :: m in v.ct && m.maMonHoc == k && (m.coTheDangKy || NeuTen(v, m))
  }

  /** A suggestion keeps the registered classes, none of its new classes overlaps anything in it, and
      it adds only classes with free seats of curriculum courses that are open to the student or were
      asked for by name. */
  ghost predicate DeXuatDung(v: DauVao, chon: BangChon) {
    && (forall k :: k in v.coDinh ==> k in chon && chon[k] == v.coDinh[k])
    && MoiKhongTrung(v.coDinh, chon)
    && (forall k :: k in chon && k !in v.coDinh ==> MonMoi(v, k, chon[k]))
  }

  lemma KetQuaDung(v: DauVao, kq: KetQua)
    requires DauVaoDung(v) && AnToan(BaiCua(v), 0, v.coDinh, kq.chon)
    ensures DeXuatDung(v, kq.chon)
  {
    SolverInputDistinct(v);
    AnToanMoi(BaiCua(v), 0, v.coDinh, kq.chon);
    forall k | k in kq.chon && k !in v.coDinh ensures MonMoi(v, k, kq.chon[k]) {
      var j :| 0 <= j < |BaiCua(v).thuTu| && BaiCua(v).thuTu[j].maMonHoc == k;
      assert LopDung(BaiCua(v), j, kq.chon);
      assert BaiCua(v).thuTu[j] in BaiCua(v).thuTu;
    }
  }

  lemma UngVienDung(v: DauVao, chon: BangChon)
    requires KhongLap(v.ct)
    ensures var bo := CanXep(v.ct, v.yeuCau, v.lops, v.daDangKy, v.kyDat).1;
            var u := UngVienTuChon(v.ct, v.yeuCau, v.lops, v.daDangKy, chon, bo, v.kyDat);
            MonRieng(u, chon) &&
            forall m :: m in u <==> m in v.ct && LaUngVien(m, v.yeuCau, v.daDangKy, chon, bo, v.kyDat)
  {
    var bo := CanXep(v.ct, v.yeuCau, v.lops, v.daDangKy, v.kyDat).1;
    LocUngVienLayTu(v.ct, v.yeuCau, v.daDangKy, chon, bo, v.kyDat);
    var loc := LocUngVien(v.ct, v.yeuCau, v.daDangKy, chon, bo, v.kyDat);
    SapXepGiuMon(loc, v.lops, 1);
    var u := UngVienTuChon(v.ct, v.yeuCau, v.lops, v.daDangKy, chon, bo, v.kyDat);
    assert forall p :: 0 <= p < |u| ==> u[p] in u;
  }

  lemma MoiNoi(cu: BangChon, giua: BangChon, chon: BangChon)
    requires MoiKhongTrung(cu, giua) && MoiKhongTrung(giua, chon)
    requires forall k :: k in giua ==> k in chon && chon[k] == giua[k]
    ensures MoiKhongTrung(cu, chon)
  {
  }

  /** The elective fill, on the request's own terms: nothing chosen is disturbed, at most the number
      asked for is added, and if fewer, then no class with a free seat of any elective that is still
      eligible fits the final timetable. */
  lemma ElectiveNoteTrue(v: DauVao, kq: KetQua)
    requires DauVaoDung(v) && DeXuatDung(v, kq.chon)
    ensures var dx := XayDungKetQua(v, kq);
            var so := v.yeuCau.soMonTuChonBatKy;
            var bo := CanXep(v.ct, v.yeuCau, v.lops, v.daDangKy, v.kyDat).1;
            && DeXuatDung(v, dx.chon)
            && (forall k :: k in kq.chon ==> k in dx.chon && dx.chon[k] == kq.chon[k])
            && |dx.chon| == |kq.chon| + dx.soDaThem && (so >= 0 ==> dx.soDaThem <= so)
            && (dx.soDaThem < so ==>
                  forall m :: m in v.ct && LaUngVien(m, v.yeuCau, v.daDangKy, dx.chon, bo, v.kyDat) ==>
                    HetCach(m, v.lops, dx.chon))
  {
    var bo := CanXep(v.ct, v.yeuCau, v.lops, v.daDangKy, v.kyDat).1;
    var u := UngVienTuChon(v.ct, v.yeuCau, v.lops, v.daDangKy, kq.chon, bo, v.kyDat);
    var so := v.yeuCau.soMonTuChonBatKy;
    UngVienDung(v, kq.chon);
    FillSound(u, v.lops, v.yeuCau, so, kq.chon);
    var dx := XayDungKetQua(v, kq);
    MoiNoi(v.coDinh, kq.chon, dx.chon);
    forall k | k in dx.chon && k !in v.coDinh ensures MonMoi(v, k, dx.chon[k]) {
      if k in kq.chon {
        assert MonMoi(v, k, kq.chon[k]);
      } else {
        var p :| 0 <= p < |u| && u[p].maMonHoc == k;
        assert u[p] in u;
      }
    }
    if dx.soDaThem < so {
      forall m | m in v.ct && LaUngVien(m, v.yeuCau, v.daDangKy, dx.chon, bo, v.kyDat)
        ensures HetCach(m, v.lops, dx.chon)
      {
        assert LaUngVien(m, v.yeuCau, v.daDangKy, kq.chon, bo, v.kyDat);
        var p :| 0 <= p < |u| && u[p] == m;
      }
    }
  }

  lemma KhongTrungLan(v: DauVao, chon: BangChon)
    requires DeXuatDung(v, chon) && KhongTrung(v.coDinh)
    ensures KhongTrung(chon)
  {
    forall k, l | k in chon && l in chon && k != l ensures !TrungNhau(chon[k].lichHocs, chon[l].lichHocs) {
      if k in v.coDinh && l in v.coDinh {
        assert chon[k] == v.coDinh[k] && chon[l] == v.coDinh[l];
      }
    }
  }

  lemma DeXuatTu(v: DauVao, kq: KetQua)
    requires DauVaoDung(v) && AnToan(BaiCua(v), 0, v.coDinh, kq.chon)
    ensures DeXuatDung(v, XayDungKetQua(v, kq).chon)
  {
    KetQuaDung(v, kq);
    ElectiveNoteTrue(v, kq);
  }

  lemma BienTheAnToan(v: DauVao)
    requires DauVaoDung(v)
    ensures var kqs := TimNhieu(BaiCua(v), v.coDinh, SO_LUONG_GOI_Y);
            1 <= |kqs| <= SO_LUONG_GOI_Y &&
            forall kq :: kq in kqs ==> AnToan(BaiCua(v), 0, v.coDinh, kq.chon)
  {
    SolverInputDistinct(v);
    VariantsSound(BaiCua(v), v.coDinh, SO_LUONG_GOI_Y);
  }

  /** Every suggestion is sound, and there are between one and five; if the registered classes are
      free of clashes, so is the whole suggestion. */
  lemma SuggestionsSound(v: DauVao)
    requires DauVaoDung(v)
    ensures 1 <= |GoiY(v)| <= SO_LUONG_GOI_Y
    ensures forall i :: 0 <= i < |GoiY(v)| ==> DeXuatDung(v, GoiY(v)[i].chon)
    ensures KhongTrung(v.coDinh) ==> forall i :: 0 <= i < |GoiY(v)| ==> KhongTrung(GoiY(v)[i].chon)
  {
    BienTheAnToan(v);
    var kqs := TimNhieu(BaiCua(v), v.coDinh, SO_LUONG_GOI_Y);
    forall i | 0 <= i < |GoiY(v)| ensures DeXuatDung(v, GoiY(v)[i].chon) {
      assert kqs[i] in kqs;
      DeXuatTu(v, kqs[i]);
    }
    if KhongTrung(v.coDinh) {
      forall i | 0 <= i < |GoiY(v)| ensures KhongTrung(GoiY(v)[i].chon) {
        KhongTrungLan(v, GoiY(v)[i].chon);
      }
    }
  }
}
