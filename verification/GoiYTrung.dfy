/** When the fill makes two suggestions alike that came from different results of the solver. */
module GoiYTrung {
  import opened Wrappers
  import opened Collections
  import opened LichHoc
  import opened Entities
  import opened XepLich
  import opened XepLichAnToan
  import opened KyHieu
  import opened BienThe
  import opened TuChon
  import opened GoiYDanhSach
  import opened GoiYAnToan
  import opened GoiYDeXuat
  import opened GoiYLyDo

  // ---------------------------------------------------------------- one list of electives for all results

  function LocNgoai(ms: seq<MonHocCt>, chon: BangChon): (r: seq<MonHocCt>)
    ensures forall m :: m in r <==> m in ms && m.maMonHoc !in chon
  {
    if ms == [] then [] else (if ms[0].maMonHoc in chon then [] else [ms[0]]) + LocNgoai(ms[1..], chon)
  }

  function Ngoai(chon: BangChon): MonHocCt -> bool { (m: MonHocCt) => m.maMonHoc !in chon }

  lemma {:induction false} KemSoLopLoc(ms: seq<MonHocCt>, lops: LopTheoMon, dau: int, chon: BangChon)
    ensures KemSoLop(LocNgoai(ms, chon), lops, dau) == Keep(KemSoLop(ms, lops, dau), Ngoai(chon))
  {
    if ms != [] {
      KemSoLopLoc(ms[1..], lops, dau, chon);
      var s := KemSoLop(ms, lops, dau);
      assert s[1..] == KemSoLop(ms[1..], lops, dau);
      if ms[0].maMonHoc !in chon { assert ([ms[0]] + LocNgoai(ms[1..], chon))[1..] == LocNgoai(ms[1..], chon); }
    }
  }

  lemma {:induction false} BoKhoaLoc(t: seq<(MonHocCt, int)>, chon: BangChon)
    ensures BoKhoa(Keep(t, Ngoai(chon))) == LocNgoai(BoKhoa(t), chon)
  {
    if t != [] {
      BoKhoaLoc(t[1..], chon);
      assert BoKhoa(t)[1..] == BoKhoa(t[1..]);
      var k := Keep(t[1..], Ngoai(chon));
      if t[0].0.maMonHoc !in chon { assert ([t[0]] + k)[1..] == k; }
    }
  }

  lemma {:induction false} LocUngVienLoc(ct: seq<MonHocCt>, c: YeuCau, daDangKy: set<nat>, chon: BangChon,
      bo: seq<MonHocCt>, kyDat: int)
    ensures LocUngVien(ct, c, daDangKy, chon, bo, kyDat) ==
            LocNgoai(LocUngVien(ct, c, daDangKy, map[], bo, kyDat), chon)
  {
    if ct != [] {
      LocUngVienLoc(ct[1..], c, daDangKy, chon, bo, kyDat);
      var sau := LocUngVien(ct[1..], c, daDangKy, map[], bo, kyDat);
      assert ([ct[0]] + sau)[1..] == sau;
      assert [] + sau == sau;
    }
  }

  /** The electives the fill would go through if nothing were placed. */
  function UngVienChung(v: DauVao): seq<MonHocCt> {
    UngVienTuChon(v.ct, v.yeuCau, v.lops, v.daDangKy, map[],
                  CanXep(v.ct, v.yeuCau, v.lops, v.daDangKy, v.kyDat).1, v.kyDat)
  }

  lemma UngVienLoc(v: DauVao, kq: KetQua)
    ensures UngVienCua(v, kq) == LocNgoai(UngVienChung(v), kq.chon)
  {
    var bo := CanXep(v.ct, v.yeuCau, v.lops, v.daDangKy, v.kyDat).1;
    var loc := LocUngVien(v.ct, v.yeuCau, v.daDangKy, map[], bo, v.kyDat);
    LocUngVienLoc(v.ct, v.yeuCau, v.daDangKy, kq.chon, bo, v.kyDat);
    KemSoLopLoc(loc, v.lops, 1, kq.chon);
    StableKeep(KemSoLop(loc, v.lops, 1), Ngoai(kq.chon));
    BoKhoaLoc(StableDescending(KemSoLop(loc, v.lops, 1)), kq.chon);
  }

  // ---------------------------------------------------------------- the fill over that list

  /** The timetable after the fill. */
  function Lap(u: seq<MonHocCt>, lops: LopTheoMon, c: YeuCau, so: int, chon: BangChon): BangChon {
    Dien(LocNgoai(u, chon), lops, c, so, chon).0
  }

  lemma {:induction false} LocRieng(u: seq<MonHocCt>, chon: BangChon)
    requires KhongLap(u)
    ensures MonRieng(LocNgoai(u, chon), chon)
  {
    if u != [] {
      var sau := LocNgoai(u[1..], chon);
      LocRieng(u[1..], chon);
      forall p | 0 <= p < |sau| ensures sau[p].maMonHoc != u[0].maMonHoc {
        assert sau[p] in sau && sau[p] in u[1..];
        var q :| 0 <= q < |u[1..]| && u[1..][q] == sau[p];
        assert u[q + 1] == sau[p];
      }
    }
  }

  lemma LapNghia(u: seq<MonHocCt>, lops: LopTheoMon, c: YeuCau, so: int, chon: BangChon)
    requires KhongLap(u)
    ensures var r := Lap(u, lops, c, so, chon);
            && MoRong(chon, r) && MoiKhongTrung(chon, r)
            && forall k :: k in r && k !in chon ==> CoMa(u, k)
  {
    var l, r := LocNgoai(u, chon), Lap(u, lops, c, so, chon);
    LocRieng(u, chon);
    FillSound(l, lops, c, so, chon);
    forall k | k in r && k !in chon ensures CoMa(u, k) {
      var p :| 0 <= p < |l| && l[p].maMonHoc == k;
      assert l[p] in l;
    }
  }

  lemma DauKhac(u: seq<MonHocCt>)
    requires u != [] && KhongLap(u)
    ensures KhongLap(u[1..]) && !CoMa(u[1..], u[0].maMonHoc)
  {
    forall m | m in u[1..] ensures m.maMonHoc != u[0].maMonHoc {
      var q :| 0 <= q < |u[1..]| && u[1..][q] == m;
      assert u[q + 1] == m;
    }
  }

  lemma LapHet(u: seq<MonHocCt>, lops: LopTheoMon, c: YeuCau, so: int, chon: BangChon)
    requires u == [] || so <= 0
    ensures Lap(u, lops, c, so, chon) == chon
  {
  }

  lemma LapQua(u: seq<MonHocCt>, lops: LopTheoMon, c: YeuCau, so: int, chon: BangChon)
    requires u != [] && so > 0 && (u[0].maMonHoc in chon || ChonCho(u[0], lops, c, chon).None?)
    ensures Lap(u, lops, c, so, chon) == Lap(u[1..], lops, c, so, chon)
  {
    var sau := LocNgoai(u[1..], chon);
    if u[0].maMonHoc in chon {
      assert [] + sau == sau;
    } else {
      assert ([u[0]] + sau)[1..] == sau;
    }
  }

  lemma {:induction false} LocThem(u: seq<MonHocCt>, chon: BangChon, k: nat, l: LopHoc)
    requires !CoMa(u, k)
    ensures LocNgoai(u, chon[k := l]) == LocNgoai(u, chon)
  {
    if u != [] {
      assert u[0] in u && forall m :: m in u[1..] ==> m in u;
      LocThem(u[1..], chon, k, l);
    }
  }

  lemma LapThem(u: seq<MonHocCt>, lops: LopTheoMon, c: YeuCau, so: int, chon: BangChon, l: LopHoc, con: int,
      sau: BangChon)
    requires u != [] && KhongLap(u) && so > 0 && u[0].maMonHoc !in chon && ChonCho(u[0], lops, c, chon) == Some(l)
    requires con == so - 1 && sau == chon[u[0].maMonHoc := l]
    ensures Lap(u, lops, c, so, chon) == Lap(u[1..], lops, c, con, sau)
  {
    var duoi := LocNgoai(u[1..], chon);
    DauKhac(u);
    LocThem(u[1..], chon, u[0].maMonHoc, l);
    assert LocNgoai(u, chon) == [u[0]] + duoi && ([u[0]] + duoi)[1..] == duoi;
    DienBuoc([u[0]] + duoi, lops, c, so, chon, l, duoi, con, sau);
  }

  // ---------------------------------------------------------------- two fills side by side

  lemma {:induction false} PhuHopCung(ranked: seq<(LopHoc, int)>, x: BangChon, y: BangChon)
    requires var r, s := LopPhuHop(ranked, x), LopPhuHop(ranked, y);
             (r.Some? ==> Hop(r.value, y)) && (s.Some? ==> Hop(s.value, x))
    ensures LopPhuHop(ranked, x) == LopPhuHop(ranked, y)
  {
    if ranked != [] && !Hop(ranked[0].0, x) && !Hop(ranked[0].0, y) { PhuHopCung(ranked[1..], x, y); }
  }

  /** A class the fill takes overlaps nothing in the result. */
  lemma LayThiHop(chon: BangChon, sau: BangChon, khac: BangChon, k: nat)
    requires k in sau && k !in chon && MoiKhongTrung(chon, sau) && MoRong(khac, sau) && k !in khac
    ensures Hop(sau[k], khac)
  {
    forall m | m in khac ensures !TrungNhau(sau[k].lichHocs, khac[m].lichHocs) {
      assert m in sau && sau[m] == khac[m] && m != k;
    }
  }

  /** One side takes the course and the other holds it already. */
  lemma MotBen(u: seq<MonHocCt>, lops: LopTheoMon, c: YeuCau, so: int, y: BangChon, x: BangChon, xs: BangChon)
      returns (con: int, sau: BangChon)
    requires u != [] && KhongLap(u) && so > 0 && u[0].maMonHoc in x && u[0].maMonHoc !in y
    requires MoRong(x, Lap(u, lops, c, so, y)) && MoRong(y, xs) && MoRong(x, xs)
    ensures Lap(u, lops, c, so, y) == Lap(u[1..], lops, c, con, sau) && MoRong(sau, xs)
  {
    var k := u[0].maMonHoc;
    DauKhac(u);
    match ChonCho(u[0], lops, c, y)
    case None =>
      con, sau := so, y;
      LapQua(u, lops, c, so, y);
    case Some(l) =>
      con, sau := so - 1, y[k := l];
      LapThem(u, lops, c, so, y, l, con, sau);
      LapNghia(u[1..], lops, c, con, sau);
      assert k in sau && sau[k] == l;
      assert Lap(u, lops, c, so, y)[k] == l && x[k] == l;
  }

  lemma CungChon(u: seq<MonHocCt>, lops: LopTheoMon, c: YeuCau, so: int, soy: int, x: BangChon, y: BangChon)
    requires u != [] && KhongLap(u) && so > 0 && soy > 0 && u[0].maMonHoc !in x && u[0].maMonHoc !in y
    requires MoRong(x, Lap(u, lops, c, soy, y)) && MoRong(y, Lap(u, lops, c, so, x))
    ensures ChonCho(u[0], lops, c, x) == ChonCho(u[0], lops, c, y)
  {
    ChonThiHop(u, lops, c, so, x, y);
    ChonThiHop(u, lops, c, soy, y, x);
    if u[0].maMonHoc in lops {
      PhuHopCung(StableDescending(ChamDiem(lops[u[0].maMonHoc], u[0].tenMonHoc, c)), x, y);
    }
  }

  lemma ChonThiHop(u: seq<MonHocCt>, lops: LopTheoMon, c: YeuCau, so: int, x: BangChon, y: BangChon)
    requires u != [] && KhongLap(u) && so > 0 && u[0].maMonHoc !in x && u[0].maMonHoc !in y
    requires MoRong(y, Lap(u, lops, c, so, x))
    ensures var r := ChonCho(u[0], lops, c, x); r.Some? ==> Hop(r.value, y)
  {
    var r, k := ChonCho(u[0], lops, c, x), u[0].maMonHoc;
    if r.Some? {
      var con, sau := so - 1, x[k := r.value];
      DauKhac(u);
      LapThem(u, lops, c, so, x, r.value, con, sau);
      LapNghia(u, lops, c, so, x);
      LapNghia(u[1..], lops, c, con, sau);
      assert k in sau && sau[k] == r.value;
      LayThiHop(x, Lap(u, lops, c, so, x), y, k);
    }
  }

  lemma CungCo(a: BangChon, b: BangChon)
    requires MoRong(a, b) && |a| == |b|
    ensures a == b
  {
    assert a.Keys <= b.Keys && |a.Keys| == |a| && |b.Keys| == |b|;
    if a.Keys != b.Keys {
      var k: nat :| k in b.Keys && k !in a.Keys;
      CoTapCon(a.Keys, b.Keys, k);
    }
  }

  lemma CoTapCon(a: set<nat>, b: set<nat>, k: nat)
    requires a <= b && k in b && k !in a
    ensures |a| < |b|
  {
    assert a <= b - {k};
    assert |a| <= |b - {k}| by { TapConCo(a, b - {k}); }
  }

  lemma {:induction false} TapConCo(a: set<nat>, b: set<nat>)
    requires a <= b
    ensures |a| <= |b|
  {
    if a != {} {
      var x: nat :| x in a;
      TapConCo(a - {x}, b - {x});
    }
  }

  /** Two fills of equal size, each of which ends with what the other began with, end alike. */
  lemma {:induction false} HaiBen(u: seq<MonHocCt>, lops: LopTheoMon, c: YeuCau, so: int, soy: int,
      x: BangChon, y: BangChon)
    requires KhongLap(u) && MoRong(x, Lap(u, lops, c, soy, y)) && MoRong(y, Lap(u, lops, c, so, x))
    requires |Lap(u, lops, c, so, x)| == |Lap(u, lops, c, soy, y)|
    ensures Lap(u, lops, c, so, x) == Lap(u, lops, c, soy, y)
    decreases |u|
  {
    var xs, ys := Lap(u, lops, c, so, x), Lap(u, lops, c, soy, y);
    LapNghia(u, lops, c, so, x);
    LapNghia(u, lops, c, soy, y);
    if u == [] || so <= 0 {
      LapHet(u, lops, c, so, x);
      CungCo(x, ys);
    } else if soy <= 0 {
      LapHet(u, lops, c, soy, y);
      CungCo(y, xs);
    } else {
      HaiBenBuoc(u, lops, c, so, soy, x, y);
    }
  }

  lemma {:induction false} HaiBenBuoc(u: seq<MonHocCt>, lops: LopTheoMon, c: YeuCau, so: int, soy: int,
      x: BangChon, y: BangChon)
    requires u != [] && so > 0 && soy > 0
    requires KhongLap(u) && MoRong(x, Lap(u, lops, c, soy, y)) && MoRong(y, Lap(u, lops, c, so, x))
    requires MoRong(x, Lap(u, lops, c, so, x)) && MoRong(y, Lap(u, lops, c, soy, y))
    requires |Lap(u, lops, c, so, x)| == |Lap(u, lops, c, soy, y)|
    ensures Lap(u, lops, c, so, x) == Lap(u, lops, c, soy, y)
    decreases |u|, 0
  {
    var k, duoi := u[0].maMonHoc, u[1..];
    DauKhac(u);
    if k in x && k in y {
      LapQua(u, lops, c, so, x);
      LapQua(u, lops, c, soy, y);
      HaiBen(duoi, lops, c, so, soy, x, y);
    } else if k in x {
      var con, sau := MotBen(u, lops, c, soy, y, x, Lap(u, lops, c, so, x));
      LapQua(u, lops, c, so, x);
      HaiBen(duoi, lops, c, so, con, x, sau);
    } else if k in y {
      var con, sau := MotBen(u, lops, c, so, x, y, Lap(u, lops, c, soy, y));
      LapQua(u, lops, c, soy, y);
      HaiBen(duoi, lops, c, con, soy, sau, y);
    } else {
      CungChon(u, lops, c, so, soy, x, y);
      match ChonCho(u[0], lops, c, x)
      case None =>
        LapQua(u, lops, c, so, x);
        LapQua(u, lops, c, soy, y);
        HaiBen(duoi, lops, c, so, soy, x, y);
      case Some(l) =>
        var con, cony, xs, ys := so - 1, soy - 1, x[k := l], y[k := l];
        LapThem(u, lops, c, so, x, l, con, xs);
        LapThem(u, lops, c, soy, y, l, cony, ys);
        CungThem(duoi, lops, c, con, cony, x, y, k, l, xs, ys);
        HaiBen(duoi, lops, c, con, cony, xs, ys);
    }
  }

  lemma CungThem(u: seq<MonHocCt>, lops: LopTheoMon, c: YeuCau, con: int, cony: int, x: BangChon, y: BangChon, k: nat,
      l: LopHoc, xs: BangChon, ys: BangChon)
    requires KhongLap(u) && xs == x[k := l] && ys == y[k := l] && k !in x && k !in y
    requires MoRong(x, Lap(u, lops, c, cony, ys)) && MoRong(y, Lap(u, lops, c, con, xs))
    ensures MoRong(xs, Lap(u, lops, c, cony, ys)) && MoRong(ys, Lap(u, lops, c, con, xs))
  {
    LapNghia(u, lops, c, cony, ys);
    LapNghia(u, lops, c, con, xs);
    assert k in xs && k in ys && xs[k] == l && ys[k] == l;
  }

  // ---------------------------------------------------------------- two suggestions

  lemma UngVienChungRieng(v: DauVao)
    requires DauVaoDung(v)
    ensures KhongLap(UngVienChung(v))
  {
    UngVienDung(v, map[]);
  }

  /** Two results become the same timetable exactly when each is found again in what the other is filled up
      to, and both end with as many courses. */
  lemma FilledAlikeExact(v: DauVao, a: KetQua, b: KetQua)
    requires DauVaoDung(v)
    ensures var p, q := XayDungKetQua(v, a), XayDungKetQua(v, b);
            p.chon == q.chon <==>
            MoRong(a.chon, q.chon) && MoRong(b.chon, p.chon) && |a.chon| + p.soDaThem == |b.chon| + q.soDaThem
  {
    var p, q := XayDungKetQua(v, a), XayDungKetQua(v, b);
    var u, so := UngVienChung(v), v.yeuCau.soMonTuChonBatKy;
    DienCua(v, a);
    DienCua(v, b);
    SoSauDien(v, a);
    SoSauDien(v, b);
    UngVienLoc(v, a);
    UngVienLoc(v, b);
    UngVienChungRieng(v);
    assert p.chon == Lap(u, v.lops, v.yeuCau, so, a.chon) && q.chon == Lap(u, v.lops, v.yeuCau, so, b.chon);
    if MoRong(a.chon, q.chon) && MoRong(b.chon, p.chon) && |p.chon| == |q.chon| {
      HaiBen(u, v.lops, v.yeuCau, so, so, a.chon, b.chon);
    }
  }

  lemma SoSauDien(v: DauVao, kq: KetQua)
    requires DauVaoDung(v)
    ensures var dx := XayDungKetQua(v, kq); |dx.chon| == |kq.chon| + dx.soDaThem
  {
    UngVienDung(v, kq.chon);
    FillSound(UngVienCua(v, kq), v.lops, v.yeuCau, v.yeuCau.soMonTuChonBatKy, kq.chon);
  }

  lemma HaiGoiY(v: DauVao, g: nat, h: nat)
    requires DauVaoDung(v) && g < h < |GoiY(v)|
    ensures var b := BaiCua(v);
            var kqs := TimNhieu(b, v.coDinh, SO_LUONG_GOI_Y);
            && |kqs| == |GoiY(v)| && GoiY(v)[g] == XayDungKetQua(v, kqs[g]) && GoiY(v)[h] == XayDungKetQua(v, kqs[h])
            && AnToan(b, 0, v.coDinh, kqs[g].chon) && AnToan(b, 0, v.coDinh, kqs[h].chon)
            && LopCuaMon(kqs[g].chon) != LopCuaMon(kqs[h].chon)
  {
    SolverInputDistinct(v);
    VariantsSound(BaiCua(v), v.coDinh, SO_LUONG_GOI_Y);
  }

  /** A course that only one of two results places was to be placed; if the other is filled up to hold it
      the fill put it back. */
  lemma RiengMotBen(v: DauVao, a: KetQua, b: KetQua, k: nat)
    requires DauVaoDung(v) && AnToan(BaiCua(v), 0, v.coDinh, a.chon) && AnToan(BaiCua(v), 0, v.coDinh, b.chon)
    requires k in a.chon && k !in b.chon && MoRong(a.chon, XayDungKetQua(v, b).chon)
    ensures exists p: nat :: TraLai(v, b, p)
  {
    var j :| 0 <= j < |BaiCua(v).thuTu| && BaiCua(v).thuTu[j].maMonHoc == k;
    var p := CoTraLai(v, b, j);
  }

  lemma CungBang(x: BangChon, y: BangChon)
    requires forall k :: (k in x ==> k in y && x[k] == y[k]) && (k in y ==> k in x)
    ensures x == y
  {
  }

  lemma CungLop(x: BangChon, y: BangChon, sau: BangChon, k: nat)
    requires MoRong(x, sau) && MoRong(y, sau) && k in x && k in y
    ensures x[k] == y[k]
  {
  }

  lemma KhacOMon(x: BangChon, y: BangChon)
    requires LopCuaMon(x) != LopCuaMon(y)
    ensures exists k :: (k in x && (k !in y || x[k] != y[k])) || (k in y && k !in x)
  {
    if forall k :: (k in x ==> k in y && x[k] == y[k]) && (k in y ==> k in x) { CungBang(x, y); }
  }

  /** Two of the suggestions, though made from results that differ, are one timetable exactly when each
      result is found again in the other suggestion and both hold as many courses. Then electives were to be
      filled in, and the fill put back into one of them a course that its list calls unplaced. */
  lemma SuggestionsAlikeExact(v: DauVao, g: nat, h: nat)
    requires DauVaoDung(v) && g < h < |GoiY(v)|
    ensures var kqs, p, q := TimNhieu(BaiCua(v), v.coDinh, SO_LUONG_GOI_Y), GoiY(v)[g], GoiY(v)[h];
            && |kqs| == |GoiY(v)|
            && (p.chon == q.chon <==>
                MoRong(kqs[g].chon, q.chon) && MoRong(kqs[h].chon, p.chon) &&
                |kqs[g].chon| + p.soDaThem == |kqs[h].chon| + q.soDaThem)
            && (p.chon == q.chon ==>
                  v.yeuCau.soMonTuChonBatKy > 0 &&
                  ((exists r: nat :: TraLai(v, kqs[g], r)) || (exists r: nat :: TraLai(v, kqs[h], r))))
  {
    var kqs, p, q := TimNhieu(BaiCua(v), v.coDinh, SO_LUONG_GOI_Y), GoiY(v)[g], GoiY(v)[h];
    HaiGoiY(v, g, h);
    FilledAlikeExact(v, kqs[g], kqs[h]);
    if p.chon == q.chon { GiongThiTraLai(v, kqs[g], kqs[h]); }
  }

  lemma GiongThiTraLai(v: DauVao, a: KetQua, b: KetQua)
    requires DauVaoDung(v) && AnToan(BaiCua(v), 0, v.coDinh, a.chon) && AnToan(BaiCua(v), 0, v.coDinh, b.chon)
    requires LopCuaMon(a.chon) != LopCuaMon(b.chon) && XayDungKetQua(v, a).chon == XayDungKetQua(v, b).chon
    ensures v.yeuCau.soMonTuChonBatKy > 0
    ensures (exists r: nat :: TraLai(v, a, r)) || (exists r: nat :: TraLai(v, b, r))
  {
    DienCua(v, a);
    DienCua(v, b);
    KhacOMon(a.chon, b.chon);
    var k :| (k in a.chon && (k !in b.chon || a.chon[k] != b.chon[k])) || (k in b.chon && k !in a.chon);
    if k in a.chon && k in b.chon {
      CungLop(a.chon, b.chon, XayDungKetQua(v, a).chon, k);
    } else if k in a.chon {
      RiengMotBen(v, a, b, k);
    } else {
      RiengMotBen(v, b, a, k);
    }
  }
}
