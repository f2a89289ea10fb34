/** The solver as the service runs it: one dictionary of chosen classes and one node counter,
    updated in place and shared by all recursive calls. */
module GoiYLich {
  import opened Wrappers
  import opened Collections
  import opened Entities
  import opened Scoring
  import opened XepLich
  import opened XepLichAnToan
  import opened KyHieu
  import opened BienThe
  import opened TuChon
  import opened CoSoDuLieu
  import opened ChuongTrinh
  import opened GoiYDanhSach
  import opened GoiYDangKy
  import opened GoiYDeXuat
  import opened AppDbContext
  import opened HocKyHienTai
  import opened Text

  class XepLichResult {
    var chon: BangChon
    var khongXepDuoc: seq<MonKhongXep>
    var tongDiem: int

    constructor (chon: BangChon)
      ensures GiaTri() == KetQua(chon, [], 0)
    {
      this.chon, khongXepDuoc, tongDiem := chon, [], 0;
    }

    function GiaTri(): KetQua
      reads this
    {
      KetQua(chon, khongXepDuoc, tongDiem)
    }
  }

  class GoiYLichService {
    var daChon: BangChon
    var soNutDaXet: int
    ghost var soLanGoi: nat

    constructor ()
      ensures daChon == map[] && soNutDaXet == 0
    {
      daChon, soNutDaXet, soLanGoi := map[], 0, 0;
    }

    method ChamDiemUngVien(ds: seq<LopHoc>, tenMonHoc: string, c: YeuCau) returns (scored: seq<(LopHoc, int)>)
      ensures scored == StableDescending(ChamDiem(ds, tenMonHoc, c))
    {
      scored := [];
      for k := 0 to |ds|
        invariant |scored| == k
        invariant forall m :: 0 <= m < k ==> scored[m] == (ds[m], Score(ds[m], tenMonHoc, c))
      {
        var diem := ScoreLop(ds[k], tenMonHoc, c);
        scored := scored + [(ds[k], diem)];
      }
      assert scored == ChamDiem(ds, tenMonHoc, c);
      scored := StableDescending(scored);
    }

    method GiaiXepLich(b: Bai, index: nat) returns (kq: XepLichResult)
      requires index <= |b.thuTu| && Rieng(b, index, daChon)
      modifies this
      ensures fresh(kq) && daChon == old(daChon)
      ensures var lan := Tim(b, index, old(daChon), old(soNutDaXet));
              kq.GiaTri() == lan.kq && soNutDaXet == lan.soNut && soLanGoi == old(soLanGoi) + lan.soLanGoi
      decreases |b.thuTu| - index, 1
    {
      soLanGoi := soLanGoi + 1;
      if index == |b.thuTu| {
        kq := new XepLichResult(daChon);
        return;
      }
      if soNutDaXet > GIOI_HAN_NUT {
        kq := KetQuaCatNgang(b, index);
        return;
      }
      var mon := b.thuTu[index];
      soNutDaXet := soNutDaXet + 1;
      if mon.maMonHoc !in b.lopTheoMon || b.lopTheoMon[mon.maMonHoc] == [] {
        kq := BoQua(b, index, KhongConLop);
        return;
      }
      var scored := ChamDiemUngVien(b.lopTheoMon[mon.maMonHoc], mon.tenMonHoc, b.yeuCau);
      var best := ThuCacLop(b, index, scored);
      if best == null {
        best := BoQua(b, index, TrungGio);
      }
      kq := best;
    }

    /** The result past the limit: every course not yet considered is marked. */
    method KetQuaCatNgang(b: Bai, index: nat) returns (kq: XepLichResult)
      requires index <= |b.thuTu|
      ensures fresh(kq) && kq.GiaTri() == KetQua(daChon, CatNgang(b, index), 0)
    {
      kq := new XepLichResult(daChon);
      for i := index to |b.thuTu|
        invariant kq.chon == daChon && kq.tongDiem == 0
        invariant kq.khongXepDuoc + CatNgang(b, i) == CatNgang(b, index)
      {
        kq.khongXepDuoc := kq.khongXepDuoc + [MonKhongXep(b.thuTu[i].tenMonHoc, VuotGioiHan)];
      }
    }

    /** Solves the later courses and puts course `index` in front of the unplaced ones. */
    method BoQua(b: Bai, index: nat, lyDo: LyDo) returns (kq: XepLichResult)
      requires index < |b.thuTu| && Rieng(b, index, daChon)
      modifies this
      ensures fresh(kq) && daChon == old(daChon)
      ensures var lan := Tim(b, index + 1, old(daChon), old(soNutDaXet));
              kq.GiaTri() == ThemDau(lan.kq, b.thuTu[index].tenMonHoc, lyDo) &&
              soNutDaXet == lan.soNut && soLanGoi == old(soLanGoi) + lan.soLanGoi
      decreases |b.thuTu| - index, 0
    {
      kq := GiaiXepLich(b, index + 1);
      kq.khongXepDuoc := [MonKhongXep(b.thuTu[index].tenMonHoc, lyDo)] + kq.khongXepDuoc;
    }

    /** Chooses one class for course `index`, solves the later courses, and takes the choice back. */
    method ThuMotLop(b: Bai, index: nat, lop: LopHoc, score: int) returns (sub: XepLichResult)
      requires index < |b.thuTu| && Rieng(b, index, daChon)
      modifies this
      ensures fresh(sub) && daChon == old(daChon)
      ensures var lan := Tim(b, index + 1, old(daChon)[b.Ma(index) := lop], old(soNutDaXet));
              sub.GiaTri() == CongDiem(lan.kq, score) &&
              soNutDaXet == lan.soNut && soLanGoi == old(soLanGoi) + lan.soLanGoi
      decreases |b.thuTu| - index, 0, 0
    {
      var ma := b.thuTu[index].maMonHoc;
      RiengTiep(b, index, daChon, lop);
      daChon := daChon[ma := lop];
      sub := GiaiXepLich(b, index + 1);
      daChon := daChon - {ma};
      assert ma !in old(daChon);
      assert daChon == old(daChon);
      sub.tongDiem := sub.tongDiem + score;
    }

    /** Tries one class and keeps the better of the result and the best so far. */
    method ThuVaGiu(b: Bai, index: nat, lop: LopHoc, score: int, best: XepLichResult?) returns (moi: XepLichResult)
      requires index < |b.thuTu| && Rieng(b, index, daChon)
      modifies this
      ensures (moi == best || fresh(moi)) && daChon == old(daChon)
      ensures var lan := Tim(b, index + 1, old(daChon)[b.Ma(index) := lop], old(soNutDaXet));
              moi.GiaTri() == Giu(old(GiaTriCua(best)), CongDiem(lan.kq, score)) &&
              soNutDaXet == lan.soNut && soLanGoi == old(soLanGoi) + lan.soLanGoi
      decreases |b.thuTu| - index, 0, 1
    {
      var sub := ThuMotLop(b, index, lop, score);
      moi := if best == null || |sub.khongXepDuoc| < |best.khongXepDuoc| ||
                (|sub.khongXepDuoc| == |best.khongXepDuoc| && sub.tongDiem > best.tongDiem)
             then sub else best;
    }

    static ghost function GiaTriCua(best: XepLichResult?): Option<KetQua>
      reads best
    {
      if best == null then None else Some(best.GiaTri())
    }

    /** The loop over the ranked classes of course `index`; null when none was tried. */
    method ThuCacLop(b: Bai, index: nat, scored: seq<(LopHoc, int)>) returns (best: XepLichResult?)
      requires index < |b.thuTu| && Rieng(b, index, daChon) && scored == b.XepHang(index)
      modifies this
      ensures best != null ==> fresh(best)
      ensures daChon == old(daChon)
      ensures var thu := ThuLop(b, index, old(daChon), 0, old(soNutDaXet), None);
              GiaTriCua(best) == thu.best && soNutDaXet == thu.soNut && soLanGoi == old(soLanGoi) + thu.soLanGoi
      decreases |b.thuTu| - index, 0, 2
    {
      best := null;
      ghost var tatCa := ThuLop(b, index, daChon, 0, soNutDaXet, None);
      var k := 0;
      while k < |scored|
        invariant k <= |scored| && daChon == old(daChon)
        invariant best != null ==> fresh(best)
        invariant ConLai(ThuLop(b, index, daChon, k, soNutDaXet, GiaTriCua(best)), tatCa, soLanGoi - old(soLanGoi))
      {
        if soNutDaXet > GIOI_HAN_NUT { break; }
        var (lop, score) := scored[k];
        ThuLopBuoc(b, index, daChon, k, soNutDaXet, GiaTriCua(best));
        if Hop(lop, daChon) {
          best := ThuVaGiu(b, index, lop, score, best);
          if best.khongXepDuoc == [] { return; }
        }
        k := k + 1;
      }
    }

    /** What remains of the loop leads to the same end, `goi` calls having been made. */
    static ghost predicate ConLai(tiep: LanThu, tatCa: LanThu, goi: int) {
      tiep.best == tatCa.best && tiep.soNut == tatCa.soNut && goi + tiep.soLanGoi == tatCa.soLanGoi
    }

    // -------------------------------------------------------------- several timetables

    /** The result objects hold these values. */
    static ghost predicate LaGiaTri(ks: seq<XepLichResult>, ds: seq<KetQua>)
      reads ks
    {
      |ks| == |ds| && forall i :: 0 <= i < |ks| ==> ks[i].GiaTri() == ds[i]
    }

    static ghost function TapKyHieu(ds: seq<KetQua>): set<string> {
      set r | r in ds :: KyHieuToHop(r.chon)
    }

    /** One run: the counter reset, the dictionary started from the fixed classes. */
    method ChayMotLan(b: Bai, coDinh: BangChon, loaiTru: LoaiTru) returns (kq: XepLichResult)
      requires Rieng(b, 0, coDinh)
      modifies this
      ensures fresh(kq) && kq.GiaTri() == ChayLai(b, coDinh, loaiTru)
    {
      var h := HanChe(b, loaiTru);
      assert Rieng(h, 0, coDinh);
      soNutDaXet := 0;
      daChon := coDinh;
      kq := GiaiXepLich(h, 0);
    }

    method TimNhieuLichHoc(b: Bai, coDinh: BangChon, toiDa: int) returns (ketQuas: seq<XepLichResult>)
      requires Rieng(b, 0, coDinh)
      modifies this
      ensures LaGiaTri(ketQuas, TimNhieu(b, coDinh, toiDa))
      ensures forall r :: r in ketQuas ==> fresh(r)
    {
      ketQuas := [];
      var toHopDaCo: set<string> := {};
      ghost var ds := [];
      if |ketQuas| < toiDa {
        ketQuas, toHopDaCo, ds := ThuVaThemLich(b, coDinh, toiDa, ketQuas, toHopDaCo, map[], ds);
      }
      var mons := NhieuLuaChon(b, b.thuTu);
      var i := 0;
      while i < |mons|
        invariant i <= |mons|
        invariant LaGiaTri(ketQuas, ds) && toHopDaCo == TapKyHieu(ds)
        invariant forall r :: r in ketQuas ==> fresh(r)
        invariant CacBienThe(b, coDinh, toiDa, mons[i..], ds) == TimNhieu(b, coDinh, toiDa)
      {
        if |ketQuas| >= toiDa { break; }
        var ma := mons[i].maMonHoc;
        var daDung := LopDaDung(ketQuas, ma, ds);
        assert mons[i..][1..] == mons[i + 1..];
        if daDung != {} {
          ketQuas, toHopDaCo, ds := ThuVaThemLich(b, coDinh, toiDa, ketQuas, toHopDaCo, map[ma := daDung], ds);
        }
        i := i + 1;
      }
    }

    /** Solves with some classes banned and keeps the result if its signature is new. */
    method ThuVaThemLich(b: Bai, coDinh: BangChon, toiDa: int, ketQuas: seq<XepLichResult>, toHopDaCo: set<string>,
                         loaiTru: LoaiTru, ghost ds: seq<KetQua>)
      returns (ks: seq<XepLichResult>, toHop: set<string>, ghost sau: seq<KetQua>)
      requires Rieng(b, 0, coDinh) && LaGiaTri(ketQuas, ds) && toHopDaCo == TapKyHieu(ds)
      modifies this
      ensures sau == ThuVaThem(b, coDinh, toiDa, ds, loaiTru) && LaGiaTri(ks, sau) && toHop == TapKyHieu(sau)
      ensures forall r :: r in ks ==> r in ketQuas || fresh(r)
    {
      ks, toHop, sau := ketQuas, toHopDaCo, ds;
      if |ketQuas| >= toiDa { return; }
      var kq := ChayMotLan(b, coDinh, loaiTru);
      var kyHieu := KyHieuToHop(kq.chon);
      ThemKyHieu(ds, kq.GiaTri());
      sau := NeuMoi(ds, kq.GiaTri());
      assert sau == ThuVaThem(b, coDinh, toiDa, ds, loaiTru);
      if kyHieu !in toHop {
        toHop := toHop + {kyHieu};
        GhepGiaTri(ks, ds, kq);
        ks := ks + [kq];
      }
    }

    /** The list with one more result, unless its signature is there. */
    static ghost function NeuMoi(ds: seq<KetQua>, d: KetQua): seq<KetQua> { if DaCo(ds, d) then ds else ds + [d] }

    static lemma GhepGiaTri(ks: seq<XepLichResult>, ds: seq<KetQua>, kq: XepLichResult)
      requires LaGiaTri(ks, ds)
      ensures LaGiaTri(ks + [kq], ds + [kq.GiaTri()])
    {
    }

    static lemma ThemKyHieu(ds: seq<KetQua>, d: KetQua)
      ensures DaCo(ds, d) <==> KyHieuToHop(d.chon) in TapKyHieu(ds)
      ensures TapKyHieu(ds + [d]) == TapKyHieu(ds) + {KyHieuToHop(d.chon)}
    {
      assert forall r :: r in ds + [d] <==> r in ds || r == d;
      assert d in ds + [d];
    }

    /** The classes of a course that the timetables found so far use. */
    method LopDaDung(ketQuas: seq<XepLichResult>, ma: nat, ghost ds: seq<KetQua>) returns (daDung: set<nat>)
      requires LaGiaTri(ketQuas, ds)
      ensures daDung == DaDung(ds, ma)
    {
      daDung := {};
      for i := 0 to |ketQuas|
        invariant daDung == DaDung(ds[..i], ma)
      {
        var k := ketQuas[i];
        assert ds[..i + 1] == ds[..i] + [ds[i]];
        if ma in k.chon { daDung := daDung + {k.chon[ma].maLopHocKy}; }
        DaDungThem(ds[..i], ds[i], ma);
      }
      assert ds[..|ketQuas|] == ds;
    }

    static lemma DaDungThem(ds: seq<KetQua>, d: KetQua, ma: nat)
      ensures DaDung(ds + [d], ma) == DaDung(ds, ma) + (if ma in d.chon then {d.chon[ma].maLopHocKy} else {})
    {
      assert forall r :: r in ds + [d] <==> r in ds || r == d;
      if ma in d.chon { assert d in ds + [d]; }
    }

    // -------------------------------------------------------------- from the request to suggestions

    /** Electives the text names but its reading missed. */
    method QuetVanBan(ct: seq<MonHocCt>, c: YeuCau, nhac: string -> bool) returns (r: YeuCau)
      ensures r == LuoiAnToan(ct, c, nhac)
    {
      r := c;
      for i := 0 to |ct|
        invariant LuoiAnToan(ct[i..], r, nhac) == LuoiAnToan(ct, c, nhac)
      {
        var mon := ct[i];
        assert ct[i..][1..] == ct[i + 1..];
        if mon.loaiMonHoc != TU_CHON { continue; }
        if KhopMotTrong(r, mon.tenMonHoc, r.monTuChonMuonHoc) { continue; }
        if KhopMotTrong(r, mon.tenMonHoc, r.monKhongMuonHoc) { continue; }
        if nhac(mon.tenMonHoc) { r := r.(monTuChonMuonHoc := r.monTuChonMuonHoc + [mon.tenMonHoc]); }
      }
    }

    /** The courses to place and those dropped at the student's wish. */
    method LapMonCanXep(v: DauVao) returns (monCanXep: seq<MonHocCt>, monBiLoai: seq<MonHocCt>)
      ensures (monCanXep, monBiLoai) == CanXep(v.ct, v.yeuCau, v.lops, v.daDangKy, v.kyDat)
    {
      var c := v.yeuCau;
      monCanXep := BatBuocCanXep(v.ct, c, v.kyDat);
      ghost var dau := monCanXep;
      var tens := c.monTuChonMuonHoc + c.monCanHocLai;
      for i := 0 to |tens|
        invariant ThemTheoTen(monCanXep, v.ct, c, v.lops, tens[i..]) == ThemTheoTen(dau, v.ct, c, v.lops, tens)
      {
        assert tens[i..][1..] == tens[i + 1..];
        var t := TimTheoTen(v.ct, c, tens[i]);
        if t.Some? && t.value.maMonHoc in v.lops && !CoMa(monCanXep, t.value.maMonHoc) &&
           (t.value.trangThai != DaDat || t.value.caiThien)
        {
          monCanXep := monCanXep + [t.value];
        }
      }
      monBiLoai := [];
      ghost var them := monCanXep;
      for i := 0 to |c.monKhongMuonHoc|
        invariant BoTheoTen(monCanXep, monBiLoai, c, c.monKhongMuonHoc[i..]) ==
                  BoTheoTen(them, [], c, c.monKhongMuonHoc)
      {
        assert c.monKhongMuonHoc[i..][1..] == c.monKhongMuonHoc[i + 1..];
        var t := TimTheoTen(monCanXep, c, c.monKhongMuonHoc[i]);
        if t.Some? {
          monCanXep := BoMot(monCanXep, t.value);
          monBiLoai := monBiLoai + [t.value];
        }
      }
      monCanXep := BoMa(monCanXep, v.daDangKy);
    }

    /** The solving order: three tiers. */
    method LapThuTu(ms: seq<MonHocCt>, c: YeuCau, lops: LopTheoMon) returns (thuTu: seq<MonHocCt>)
      ensures thuTu == ThuTuGiai(ms, c, lops)
    {
      var monUuTienHangDau: seq<MonHocCt> := [];
      for i := 0 to |c.thuTuUuTien|
        invariant TangMot(ms, monUuTienHangDau, c, c.thuTuUuTien[i..]) == TangMot(ms, [], c, c.thuTuUuTien)
      {
        assert c.thuTuUuTien[i..][1..] == c.thuTuUuTien[i + 1..];
        var t := TimTheoTenNgoai(ms, monUuTienHangDau, c, c.thuTuUuTien[i].tenMonHoc);
        if t.Some? { monUuTienHangDau := monUuTienHangDau + [t.value]; }
      }
      var monTuChonUuTien := TangHai(ms, monUuTienHangDau, c);
      thuTu := monUuTienHangDau + monTuChonUuTien + TangBa(ms, monUuTienHangDau, monTuChonUuTien, lops);
    }

    /** Fills free time with electives. */
    method DienTuChon(ungVien: seq<MonHocCt>, lops: LopTheoMon, c: YeuCau, chon: BangChon)
      returns (daChonHienTai: BangChon, soDaThem: nat)
      ensures (daChonHienTai, soDaThem) == Dien(ungVien, lops, c, c.soMonTuChonBatKy, chon)
    {
      daChonHienTai, soDaThem := chon, 0;
      ghost var tatCa := Dien(ungVien, lops, c, c.soMonTuChonBatKy, chon);
      if c.soMonTuChonBatKy > 0 {
        var i := 0;
        while i < |ungVien|
          invariant i <= |ungVien|
          invariant var tiep := Dien(ungVien[i..], lops, c, c.soMonTuChonBatKy - soDaThem, daChonHienTai);
                    tiep.0 == tatCa.0 && soDaThem + tiep.1 == tatCa.1
        {
          if soDaThem >= c.soMonTuChonBatKy { break; }
          var mon := ungVien[i];
          assert ungVien[i..][1..] == ungVien[i + 1..];
          i := i + 1;
          if mon.maMonHoc !in lops { continue; }
          var scored := ChamDiemUngVien(lops[mon.maMonHoc], mon.tenMonHoc, c);
          var lopPhuHop := LopPhuHop(scored, daChonHienTai);
          if lopPhuHop.Some? {
            daChonHienTai := daChonHienTai[mon.maMonHoc := lopPhuHop.value];
            soDaThem := soDaThem + 1;
          }
        }
      }
    }

    /** The suggestions for a student. `nhac` says whether the request's text names a course. */
    method GoiYAsync(db: AppDb, dm: DanhMuc, sv: nat, now: int, vanBan: string, c: YeuCau, nhac: string -> bool)
      returns (r: Option<seq<DeXuat>>)
      requires sv in dm.sinhViens && DotDung(dm) && KhungDung(dm, KhungCua(dm, dm.sinhViens[sv]))
      modifies this
      ensures var hk := ResolveHocKyHienTai(dm, db.Gia(), dm.sinhViens[sv], now);
              if Blank(vanBan) || hk.None? then r == Some([])
              else hk.value in dm.hocKys &&
                   if !MotLopMoiMon(db.Gia(), sv, hk.value) then r.None?
                   else r == Some(GoiY(LapDauVao(dm, db.Gia(), sv, hk.value, c, nhac))) &&
                        1 <= |r.value| <= SO_LUONG_GOI_Y
    {
      var t := db.Gia();
      var hocKy := ResolveHocKyHienTai(dm, t, dm.sinhViens[sv], now);
      HocKyCo(dm, t, dm.sinhViens[sv], now);
      if Blank(vanBan) || hocKy.None? {
        r := Some([]);
      } else if !MotLopMoiMon(t, sv, hocKy.value) {
        r := None;
      } else {
        var ds := GoiYTrongKy(t, dm, sv, hocKy.value, c, nhac);
        r := Some(ds);
      }
    }

    /** The suggestions in a term, for a student with at most one class per course there. */
    method GoiYTrongKy(t: Db, dm: DanhMuc, sv: nat, hk: nat, c: YeuCau, nhac: string -> bool)
      returns (ds: seq<DeXuat>)
      requires sv in dm.sinhViens && hk in dm.hocKys && MotLopMoiMon(t, sv, hk)
      requires KhungDung(dm, KhungCua(dm, dm.sinhViens[sv]))
      modifies this
      ensures ds == GoiY(LapDauVao(dm, t, sv, hk, c, nhac))
      ensures 1 <= |ds| <= SO_LUONG_GOI_Y
    {
      var ct := BuildChuongTrinh(dm, t, sv, hk);
      var yeuCau := QuetVanBan(ct, c, nhac);
      var (_, kyDat) := TinhKyDat(dm.hocKys[hk], true, dm.sinhViens[sv].namNhapHoc);
      var v := DauVao(ct, yeuCau, LopTheoMonCua(t, hk), MonDaDangKy(t, sv, hk), CoDinh(t, sv, hk), kyDat);
      LapDauVaoDung(dm, t, sv, hk, c, nhac);
      SolverInputDistinct(v);
      SuggestionsSound(v);

      var monCanXep, monBiLoai := LapMonCanXep(v);
      var thuTu := LapThuTu(monCanXep, yeuCau, v.lops);
      var bai := Bai(thuTu, v.lops, yeuCau);
      assert bai == BaiCua(v);
      var ketQuas := TimNhieuLichHoc(bai, v.coDinh, SO_LUONG_GOI_Y);
      ds := XayDung(v, monBiLoai, ketQuas, TimNhieu(bai, v.coDinh, SO_LUONG_GOI_Y));
    }

    /** Turns each result into a suggestion. */
    method XayDung(v: DauVao, monBiLoai: seq<MonHocCt>, ketQuas: seq<XepLichResult>, ghost kqs: seq<KetQua>)
      returns (ds: seq<DeXuat>)
      requires monBiLoai == CanXep(v.ct, v.yeuCau, v.lops, v.daDangKy, v.kyDat).1 && LaGiaTri(ketQuas, kqs)
      ensures ds == XayDungTatCa(v, kqs)
    {
      ds := [];
      for i := 0 to |ketQuas|
        invariant |ds| == i && forall k :: 0 <= k < i ==> ds[k] == XayDungKetQua(v, kqs[k])
      {
        var kq := ketQuas[i];
        assert kq.GiaTri() == kqs[i];
        var ungVien := UngVienTuChon(v.ct, v.yeuCau, v.lops, v.daDangKy, kq.chon, monBiLoai, v.kyDat);
        var chon, soDaThem := DienTuChon(ungVien, v.lops, v.yeuCau, kq.chon);
        ds := ds + [DeXuat(chon, kq.khongXepDuoc, soDaThem)];
      }
    }
  }
}
