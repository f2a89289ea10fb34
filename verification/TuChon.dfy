/** Filling a timetable with electives that were not named: greedy, only into free time. */
module TuChon {
  import opened Wrappers
  import opened Collections
  import opened LichHoc
  import opened Entities
  import opened Scoring
  import opened XepLich
  import opened XepLichAnToan

  type LopTheoMon = map<nat, seq<LopHoc>>

  /** The first class, in ranked order, that overlaps nothing chosen. */
  function LopPhuHop(ranked: seq<(LopHoc, int)>, daChon: BangChon): Option<LopHoc> {
    if ranked == [] then None
    else if Hop(ranked[0].0, daChon) then Some(ranked[0].0)
    else LopPhuHop(ranked[1..], daChon)
  }

  function ChonCho(mon: MonHocCt, lops: LopTheoMon, c: YeuCau, daChon: BangChon): Option<LopHoc> {
    if mon.maMonHoc in lops
    then LopPhuHop(StableDescending(ChamDiem(lops[mon.maMonHoc], mon.tenMonHoc, c)), daChon)
    else None
  }

  /** Adds at most soConThieu of the given electives, in order; returns the timetable and the number added. */
  function Dien(ungVien: seq<MonHocCt>, lops: LopTheoMon, c: YeuCau, soConThieu: int, daChon: BangChon): (BangChon, nat)
    decreases |ungVien|
  {
    if ungVien == [] || soConThieu <= 0 then (daChon, 0)
    else
      var mon := ungVien[0];
      match ChonCho(mon, lops, c, daChon)
      case None => Dien(ungVien[1..], lops, c, soConThieu, daChon)
      case Some(l) =>
        var tiep := Dien(ungVien[1..], lops, c, soConThieu - 1, daChon[mon.maMonHoc := l]);
        (tiep.0, tiep.1 + 1)
  }

  lemma {:induction false} LopPhuHopNghia(ranked: seq<(LopHoc, int)>, daChon: BangChon)
    ensures match LopPhuHop(ranked, daChon)
            case Some(l) => Hop(l, daChon) && exists k :: 0 <= k < |ranked| && ranked[k].0 == l
            case None => forall k :: 0 <= k < |ranked| ==> !Hop(ranked[k].0, daChon)
  {
    if ranked != [] && !Hop(ranked[0].0, daChon) {
      LopPhuHopNghia(ranked[1..], daChon);
      var r := LopPhuHop(ranked[1..], daChon);
      if r.Some? {
        var k :| 0 <= k < |ranked[1..]| && ranked[1..][k].0 == r.value;
        assert ranked[k + 1].0 == r.value;
      }
    }
  }

  /** No class of the course can be added to the timetable. */
  ghost predicate HetCach(mon: MonHocCt, lops: LopTheoMon, chon: BangChon) {
    mon.maMonHoc in lops ==> forall l :: l in lops[mon.maMonHoc] ==> !Hop(l, chon)
  }

  lemma ChonChoNghia(mon: MonHocCt, lops: LopTheoMon, c: YeuCau, daChon: BangChon)
    ensures match ChonCho(mon, lops, c, daChon)
            case Some(l) => mon.maMonHoc in lops && l in lops[mon.maMonHoc] && Hop(l, daChon)
            case None => HetCach(mon, lops, daChon)
  {
    if mon.maMonHoc in lops {
      var ds := lops[mon.maMonHoc];
      XepDs(ds, mon.tenMonHoc, c);
      LopPhuHopNghia(StableDescending(ChamDiem(ds, mon.tenMonHoc, c)), daChon);
    }
  }

  ghost predicate MonRieng(ungVien: seq<MonHocCt>, daChon: BangChon) {
    && (forall p, q :: 0 <= p < q < |ungVien| ==> ungVien[p].maMonHoc != ungVien[q].maMonHoc)
    && (forall p :: 0 <= p < |ungVien| ==> ungVien[p].maMonHoc !in daChon)
  }

  /** The courses that are new in `chon` are listed, and have an offered class. */
  ghost predicate NguonDung(ungVien: seq<MonHocCt>, lops: LopTheoMon, daChon: BangChon, chon: BangChon) {
    forall k :: k in chon && k !in daChon ==>
      k in lops && chon[k] in lops[k] && exists p :: 0 <= p < |ungVien| && ungVien[p].maMonHoc == k
  }

  /** None of the electives can still be added. */
  ghost predicate KhongCon(ungVien: seq<MonHocCt>, lops: LopTheoMon, chon: BangChon) {
    forall p :: 0 <= p < |ungVien| ==> ungVien[p].maMonHoc in chon || HetCach(ungVien[p], lops, chon)
  }

  ghost predicate MoRong(daChon: BangChon, chon: BangChon) {
    forall k :: k in daChon ==> k in chon && chon[k] == daChon[k]
  }

  /** A fill of these electives that ends with timetable kq.0 after kq.1 additions. */
  ghost predicate DienDung(ungVien: seq<MonHocCt>, lops: LopTheoMon, so: int, daChon: BangChon, kq: (BangChon, nat)) {
    var (chon, them) := kq;
    && MoRong(daChon, chon) && NguonDung(ungVien, lops, daChon, chon) && MoiKhongTrung(daChon, chon)
    && |chon| == |daChon| + them && (so >= 0 ==> them <= so)
    && (them < so ==> KhongCon(ungVien, lops, chon))
  }

  lemma NguonThem(ungVien: seq<MonHocCt>, lops: LopTheoMon, daChon: BangChon, l: LopHoc, sau: BangChon, chon: BangChon)
    requires ungVien != [] && ungVien[0].maMonHoc in lops && l in lops[ungVien[0].maMonHoc]
    requires sau == daChon[ungVien[0].maMonHoc := l]
    requires MoRong(sau, chon) && NguonDung(ungVien[1..], lops, sau, chon)
    ensures NguonDung(ungVien, lops, daChon, chon)
  {
    forall k | k in chon && k !in daChon
      ensures k in lops && chon[k] in lops[k] && exists p :: 0 <= p < |ungVien| && ungVien[p].maMonHoc == k
    {
      if k in sau {
        assert k == ungVien[0].maMonHoc;
      } else {
        var p :| 0 <= p < |ungVien[1..]| && ungVien[1..][p].maMonHoc == k;
        assert ungVien[p + 1].maMonHoc == k;
      }
    }
  }

  lemma NguonBoQua(ungVien: seq<MonHocCt>, lops: LopTheoMon, daChon: BangChon, chon: BangChon)
    requires ungVien != [] && NguonDung(ungVien[1..], lops, daChon, chon)
    ensures NguonDung(ungVien, lops, daChon, chon)
  {
    forall k | k in chon && k !in daChon
      ensures exists p :: 0 <= p < |ungVien| && ungVien[p].maMonHoc == k
    {
      var p :| 0 <= p < |ungVien[1..]| && ungVien[1..][p].maMonHoc == k;
      assert ungVien[p + 1].maMonHoc == k;
    }
  }

  lemma KhongConThem(ungVien: seq<MonHocCt>, lops: LopTheoMon, chon: BangChon)
    requires ungVien != [] && (ungVien[0].maMonHoc in chon || HetCach(ungVien[0], lops, chon))
    requires KhongCon(ungVien[1..], lops, chon)
    ensures KhongCon(ungVien, lops, chon)
  {
    forall p | 0 <= p < |ungVien| ensures ungVien[p].maMonHoc in chon || HetCach(ungVien[p], lops, chon) {
      if p > 0 { assert ungVien[p] == ungVien[1..][p - 1]; }
    }
  }

  lemma MoiThem(daChon: BangChon, ma: nat, l: LopHoc, sau: BangChon, chon: BangChon)
    requires Hop(l, daChon) && ma !in daChon && sau == daChon[ma := l] && MoiKhongTrung(sau, chon) && MoRong(sau, chon)
    ensures MoiKhongTrung(daChon, chon) && MoRong(daChon, chon)
  {
    forall k, m | k in chon && m in chon && k != m && (k !in daChon || m !in daChon)
      ensures !TrungNhau(chon[k].lichHocs, chon[m].lichHocs)
    {
      if k in sau && m in sau {
        var cu := if k == ma then m else k;
        assert cu in daChon && chon[ma] == l && chon[cu] == daChon[cu];
        TrungNhauSymmetric(l.lichHocs, daChon[cu].lichHocs);
      }
    }
    forall k | k in daChon ensures k in chon && chon[k] == daChon[k] { assert k in sau && sau[k] == daChon[k]; }
  }

  lemma MonRiengTiep(ungVien: seq<MonHocCt>, daChon: BangChon, l: LopHoc)
    requires ungVien != [] && MonRieng(ungVien, daChon)
    ensures MonRieng(ungVien[1..], daChon[ungVien[0].maMonHoc := l])
  {
  }

  lemma BoQuaTuChon(ungVien: seq<MonHocCt>, lops: LopTheoMon, so: int, daChon: BangChon, kq: (BangChon, nat))
    requires ungVien != [] && HetCach(ungVien[0], lops, daChon) && DienDung(ungVien[1..], lops, so, daChon, kq)
    ensures DienDung(ungVien, lops, so, daChon, kq)
  {
    NguonBoQua(ungVien, lops, daChon, kq.0);
    if kq.1 < so {
      assert HetCach(ungVien[0], lops, kq.0);
      KhongConThem(ungVien, lops, kq.0);
    }
  }

  lemma ThemTuChon(ungVien: seq<MonHocCt>, lops: LopTheoMon, so: int, daChon: BangChon, l: LopHoc,
      duoi: seq<MonHocCt>, con: int, sau: BangChon, tiep: (BangChon, nat), kq: (BangChon, nat))
    requires ungVien != [] && MonRieng(ungVien, daChon) && so > 0
    requires ungVien[0].maMonHoc in lops && l in lops[ungVien[0].maMonHoc] && Hop(l, daChon)
    requires duoi == ungVien[1..] && con == so - 1 && sau == daChon[ungVien[0].maMonHoc := l]
    requires DienDung(duoi, lops, con, sau, tiep) && kq.0 == tiep.0 && kq.1 == tiep.1 + 1
    ensures DienDung(ungVien, lops, so, daChon, kq)
  {
    var ma, chon := ungVien[0].maMonHoc, kq.0;
    assert ma in sau && |sau| == |daChon| + 1;
    MoiThem(daChon, ma, l, sau, chon);
    NguonThem(ungVien, lops, daChon, l, sau, chon);
    if kq.1 < so { KhongConThem(ungVien, lops, chon); }
  }

  lemma DungYen(ungVien: seq<MonHocCt>, lops: LopTheoMon, so: int, daChon: BangChon)
    requires ungVien == [] || so <= 0
    ensures DienDung(ungVien, lops, so, daChon, (daChon, 0))
  {
  }

  /** One step of the fill that adds class l: what it goes on with. */
  lemma DienBuoc(ungVien: seq<MonHocCt>, lops: LopTheoMon, c: YeuCau, so: int, daChon: BangChon, l: LopHoc,
      duoi: seq<MonHocCt>, con: int, sau: BangChon)
    requires ungVien != [] && so > 0 && ChonCho(ungVien[0], lops, c, daChon) == Some(l)
    requires duoi == ungVien[1..] && con == so - 1 && sau == daChon[ungVien[0].maMonHoc := l]
    ensures var kq, tiep := Dien(ungVien, lops, c, so, daChon), Dien(duoi, lops, c, con, sau);
            kq.0 == tiep.0 && kq.1 == tiep.1 + 1
  {
  }

  /** What is shown of the fill of these electives. */
  ghost predicate FillDung(ungVien: seq<MonHocCt>, lops: LopTheoMon, c: YeuCau, so: int, daChon: BangChon) {
    DienDung(ungVien, lops, so, daChon, Dien(ungVien, lops, c, so, daChon))
  }

  /** The first elective has no class that fits. */
  lemma FillNone(ungVien: seq<MonHocCt>, lops: LopTheoMon, c: YeuCau, so: int, daChon: BangChon)
    requires ungVien != [] && so > 0 && ChonCho(ungVien[0], lops, c, daChon).None?
    requires FillDung(ungVien[1..], lops, c, so, daChon)
    ensures FillDung(ungVien, lops, c, so, daChon)
  {
    ChonChoNghia(ungVien[0], lops, c, daChon);
    BoQuaTuChon(ungVien, lops, so, daChon, Dien(ungVien, lops, c, so, daChon));
  }

  /** The first elective gets class l. */
  lemma FillSome(ungVien: seq<MonHocCt>, lops: LopTheoMon, c: YeuCau, so: int, daChon: BangChon, l: LopHoc,
      duoi: seq<MonHocCt>, con: int, sau: BangChon)
    requires MonRieng(ungVien, daChon) && ungVien != [] && so > 0 && ChonCho(ungVien[0], lops, c, daChon) == Some(l)
    requires duoi == ungVien[1..] && con == so - 1 && sau == daChon[ungVien[0].maMonHoc := l]
    requires FillDung(duoi, lops, c, con, sau)
    ensures FillDung(ungVien, lops, c, so, daChon)
  {
    ChonChoNghia(ungVien[0], lops, c, daChon);
    DienBuoc(ungVien, lops, c, so, daChon, l, duoi, con, sau);
    var kq, tiep := Dien(ungVien, lops, c, so, daChon), Dien(duoi, lops, c, con, sau);
    ThemTuChon(ungVien, lops, so, daChon, l, duoi, con, sau, tiep, kq);
  }

  /** The fill keeps every class, adds only offered classes of the listed electives and at most the
      number asked for, creates no clash, and stops short of that number only when no class of any
      remaining elective fits the final timetable. */
  lemma {:induction false} FillSound(ungVien: seq<MonHocCt>, lops: LopTheoMon, c: YeuCau, so: int, daChon: BangChon)
    requires MonRieng(ungVien, daChon)
    ensures FillDung(ungVien, lops, c, so, daChon)
  {
    if ungVien == [] || so <= 0 {
      DungYen(ungVien, lops, so, daChon);
    } else {
      match ChonCho(ungVien[0], lops, c, daChon)
      case None =>
        FillSound(ungVien[1..], lops, c, so, daChon);
        FillNone(ungVien, lops, c, so, daChon);
      case Some(l) =>
        MonRiengTiep(ungVien, daChon, l);
        var duoi, con, sau := ungVien[1..], so - 1, daChon[ungVien[0].maMonHoc := l];
        FillSound(duoi, lops, c, con, sau);
        FillSome(ungVien, lops, c, so, daChon, l, duoi, con, sau);
    }
  }

  // ---------------------------------------------------------------- one elective's turn

  /** When its turn comes fewer than asked for have been added, and a class of it fits. */
  ghost predicate DenLuot(ungVien: seq<MonHocCt>, lops: LopTheoMon, c: YeuCau, so: int, daChon: BangChon, p: nat)
    requires p < |ungVien|
  {
    var t := Dien(ungVien[..p], lops, c, so, daChon);
    t.1 < so && !HetCach(ungVien[p], lops, t.0)
  }

  /** Course p is in the filled timetable with the class it gets at its turn, if it gets one. */
  ghost predicate LuotDung(ungVien: seq<MonHocCt>, lops: LopTheoMon, c: YeuCau, so: int, daChon: BangChon, p: nat)
    requires p < |ungVien|
  {
    var t, chon := Dien(ungVien[..p], lops, c, so, daChon), Dien(ungVien, lops, c, so, daChon).0;
    var lop, ma := ChonCho(ungVien[p], lops, c, t.0), ungVien[p].maMonHoc;
    && (ma in chon <==> t.1 < so && lop.Some?) && (ma in chon ==> chon[ma] == lop.value)
  }

  lemma LuotDau(ungVien: seq<MonHocCt>, lops: LopTheoMon, c: YeuCau, so: int, daChon: BangChon)
    requires ungVien != [] && MonRieng(ungVien, daChon)
    ensures LuotDung(ungVien, lops, c, so, daChon, 0)
  {
    var ma, duoi, con := ungVien[0].maMonHoc, ungVien[1..], so - 1;
    assert ungVien[..0] == [];
    if so > 0 {
      match ChonCho(ungVien[0], lops, c, daChon)
      case None =>
        FillSound(duoi, lops, c, so, daChon);
        assert ma !in Dien(duoi, lops, c, so, daChon).0;
      case Some(l) =>
        var sau := daChon[ma := l];
        MonRiengTiep(ungVien, daChon, l);
        FillSound(duoi, lops, c, con, sau);
        DienBuoc(ungVien, lops, c, so, daChon, l, duoi, con, sau);
        assert ma in sau && sau[ma] == l;
    }
  }

  /** The turns after the first, from the timetable after the first. */
  lemma LuotSau(ungVien: seq<MonHocCt>, lops: LopTheoMon, c: YeuCau, so: int, daChon: BangChon, p: nat,
      duoi: seq<MonHocCt>, con: int, sau: BangChon, q: nat)
    requires 0 < p < |ungVien| && so > 0 && duoi == ungVien[1..] && q == p - 1
    requires match ChonCho(ungVien[0], lops, c, daChon)
             case None => con == so && sau == daChon
             case Some(l) => con == so - 1 && sau == daChon[ungVien[0].maMonHoc := l]
    requires LuotDung(duoi, lops, c, con, sau, q)
    ensures LuotDung(ungVien, lops, c, so, daChon, p)
  {
    var dau := ungVien[..p];
    assert dau[0] == ungVien[0] && dau[1..] == duoi[..q] && duoi[q] == ungVien[p];
    DienDauTien(ungVien, lops, c, so, daChon, duoi, con, sau);
    DienDauTien(dau, lops, c, so, daChon, duoi[..q], con, sau);
  }

  /** The fill after its first step. */
  lemma DienDauTien(ungVien: seq<MonHocCt>, lops: LopTheoMon, c: YeuCau, so: int, daChon: BangChon,
      duoi: seq<MonHocCt>, con: int, sau: BangChon)
    requires ungVien != [] && so > 0 && duoi == ungVien[1..]
    requires match ChonCho(ungVien[0], lops, c, daChon)
             case None => con == so && sau == daChon
             case Some(l) => con == so - 1 && sau == daChon[ungVien[0].maMonHoc := l]
    ensures var kq, tiep := Dien(ungVien, lops, c, so, daChon), Dien(duoi, lops, c, con, sau);
            kq.0 == tiep.0 && kq.1 - tiep.1 == so - con
  {
  }

  lemma {:induction false} LuotMoiMon(
      ungVien: seq<MonHocCt>, lops: LopTheoMon, c: YeuCau, so: int, daChon: BangChon, p: nat)
    requires p < |ungVien| && MonRieng(ungVien, daChon)
    ensures LuotDung(ungVien, lops, c, so, daChon, p)
    decreases |ungVien|
  {
    if p == 0 {
      LuotDau(ungVien, lops, c, so, daChon);
    } else if so > 0 {
      var duoi, q: nat := ungVien[1..], p - 1;
      match ChonCho(ungVien[0], lops, c, daChon)
      case None =>
        LuotMoiMon(duoi, lops, c, so, daChon, q);
        LuotSau(ungVien, lops, c, so, daChon, p, duoi, so, daChon, q);
      case Some(l) =>
        var con, sau := so - 1, daChon[ungVien[0].maMonHoc := l];
        MonRiengTiep(ungVien, daChon, l);
        LuotMoiMon(duoi, lops, c, con, sau, q);
        LuotSau(ungVien, lops, c, so, daChon, p, duoi, con, sau, q);
    }
  }

  /** The fill takes an elective exactly when, its turn come, fewer than asked for have been added and a
      class of it fits. */
  lemma FillTakesExact(ungVien: seq<MonHocCt>, lops: LopTheoMon, c: YeuCau, so: int, daChon: BangChon, p: nat)
    requires p < |ungVien| && MonRieng(ungVien, daChon)
    ensures ungVien[p].maMonHoc in Dien(ungVien, lops, c, so, daChon).0 <==> DenLuot(ungVien, lops, c, so, daChon, p)
  {
    LuotMoiMon(ungVien, lops, c, so, daChon, p);
    ChonChoNghia(ungVien[p], lops, c, Dien(ungVien[..p], lops, c, so, daChon).0);
  }

  lemma {:induction false} LopPhuHopDau(ranked: seq<(LopHoc, int)>, daChon: BangChon, k: nat)
    requires k < |ranked| && Hop(ranked[k].0, daChon)
    ensures var r := LopPhuHop(ranked, daChon);
            r.Some? && exists i: nat :: i <= k && ranked[i].0 == r.value
  {
    if !Hop(ranked[0].0, daChon) {
      LopPhuHopDau(ranked[1..], daChon, k - 1);
      var i: nat :| i <= k - 1 && ranked[1..][i].0 == LopPhuHop(ranked[1..], daChon).value;
      assert ranked[i + 1].0 == ranked[1..][i].0;
    } else {
      assert ranked[0].0 == LopPhuHop(ranked, daChon).value;
    }
  }

  /** The class taken from a ranking has the highest key of those that fit. */
  lemma KhoaCao(ranked: seq<(LopHoc, int)>, daChon: BangChon, k: nat) returns (i: nat)
    requires Descending(ranked) && k < |ranked| && Hop(ranked[k].0, daChon)
    ensures i < |ranked| && LopPhuHop(ranked, daChon) == Some(ranked[i].0) && ranked[k].1 <= ranked[i].1
  {
    LopPhuHopDau(ranked, daChon, k);
    i :| i <= k && ranked[i].0 == LopPhuHop(ranked, daChon).value;
  }

  lemma DiemCao(mon: MonHocCt, lops: LopTheoMon, c: YeuCau, chon: BangChon, l: LopHoc, x: LopHoc)
    requires ChonCho(mon, lops, c, chon) == Some(l) && x in lops[mon.maMonHoc] && Hop(x, chon)
    ensures Score(x, mon.tenMonHoc, c) <= Score(l, mon.tenMonHoc, c)
  {
    var ds := lops[mon.maMonHoc];
    var t := StableDescending(ChamDiem(ds, mon.tenMonHoc, c));
    XepDs(ds, mon.tenMonHoc, c);
    var k: nat :| k < |t| && t[k].0 == x;
    var i := KhoaCao(t, chon, k);
    assert t[i].1 == Score(t[i].0, mon.tenMonHoc, c) && t[k].1 == Score(t[k].0, mon.tenMonHoc, c);
  }

  /** An elective that is taken gets an offered class that fits at its turn, and no other that fits then scores
      more. */
  lemma FillClassBest(ungVien: seq<MonHocCt>, lops: LopTheoMon, c: YeuCau, so: int, daChon: BangChon, p: nat)
    requires p < |ungVien| && MonRieng(ungVien, daChon)
    requires ungVien[p].maMonHoc in Dien(ungVien, lops, c, so, daChon).0
    ensures var mon, truoc := ungVien[p], Dien(ungVien[..p], lops, c, so, daChon).0;
            var l := Dien(ungVien, lops, c, so, daChon).0[mon.maMonHoc];
            && mon.maMonHoc in lops && l in lops[mon.maMonHoc] && Hop(l, truoc)
            && forall x :: x in lops[mon.maMonHoc] && Hop(x, truoc) ==>
                 Score(x, mon.tenMonHoc, c) <= Score(l, mon.tenMonHoc, c)
  {
    var mon, truoc := ungVien[p], Dien(ungVien[..p], lops, c, so, daChon).0;
    var l := Dien(ungVien, lops, c, so, daChon).0[mon.maMonHoc];
    LuotMoiMon(ungVien, lops, c, so, daChon, p);
    ChonChoNghia(mon, lops, c, truoc);
    assert ChonCho(mon, lops, c, truoc) == Some(l);
    forall x | x in lops[mon.maMonHoc] && Hop(x, truoc)
      ensures Score(x, mon.tenMonHoc, c) <= Score(l, mon.tenMonHoc, c)
    {
      DiemCao(mon, lops, c, truoc, l, x);
    }
  }
}
