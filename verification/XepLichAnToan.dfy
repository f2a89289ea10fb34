/** What the search keeps for any budget: the result extends what was chosen, uses offered
    classes, adds no clash, and accounts for every course. */
module XepLichAnToan {
  import opened Wrappers
  import opened LichHoc
  import opened Entities
  import opened Scoring
  import opened XepLich

  ghost function MaTu(b: Bai, i: nat): set<nat>
    requires i <= |b.thuTu|
  {
    set j | i <= j < |b.thuTu| :: b.thuTu[j].maMonHoc
  }

  /** What the caller guarantees: course ids are distinct and none from i on is chosen yet. */
  ghost predicate Rieng(b: Bai, i: nat, daChon: BangChon)
    requires i <= |b.thuTu|
  {
    && (forall p, q :: 0 <= p < q < |b.thuTu| ==> b.thuTu[p].maMonHoc != b.thuTu[q].maMonHoc)
    && (forall p :: i <= p < |b.thuTu| ==> b.thuTu[p].maMonHoc !in daChon)
  }

  /** The class chosen for course j is offered and overlaps no other chosen class. */
  ghost predicate LopDung(b: Bai, j: nat, chon: BangChon)
    requires j < |b.thuTu| && b.Ma(j) in chon
  {
    && chon[b.Ma(j)] in b.UngVien(j)
    && forall k :: k in chon && k != b.Ma(j) ==> !TrungNhau(chon[b.Ma(j)].lichHocs, chon[k].lichHocs)
  }

  ghost predicate AnToan(b: Bai, i: nat, daChon: BangChon, chon: BangChon)
    requires i <= |b.thuTu|
  {
    && (forall k :: k in daChon ==> k in chon && chon[k] == daChon[k])
    && chon.Keys <= daChon.Keys + MaTu(b, i)
    && (forall j :: i <= j < |b.thuTu| && b.Ma(j) in chon ==> LopDung(b, j, chon))
  }

  /** The names of the courses from i on that have no class, in solving order. */
  function TenThieu(b: Bai, i: nat, chon: BangChon): seq<string>
    requires i <= |b.thuTu|
    decreases |b.thuTu| - i
  {
    if i == |b.thuTu| then []
    else (if b.Ma(i) in chon then [] else [b.thuTu[i].tenMonHoc]) + TenThieu(b, i + 1, chon)
  }

  /** The total score of the classes chosen for the courses from i on. */
  function DiemMoi(b: Bai, i: nat, chon: BangChon): int
    requires i <= |b.thuTu|
    decreases |b.thuTu| - i
  {
    if i == |b.thuTu| then 0
    else (if b.Ma(i) in chon then Score(chon[b.Ma(i)], b.thuTu[i].tenMonHoc, b.yeuCau) else 0) + DiemMoi(b, i + 1, chon)
  }

  function Ten(ds: seq<MonKhongXep>): seq<string> {
    if ds == [] then [] else [ds[0].tenMonHoc] + Ten(ds[1..])
  }

  ghost predicate Dung(b: Bai, i: nat, daChon: BangChon, kq: KetQua)
    requires i <= |b.thuTu|
  {
    && AnToan(b, i, daChon, kq.chon)
    && Ten(kq.khongXepDuoc) == TenThieu(b, i, kq.chon)
    && kq.tongDiem == DiemMoi(b, i, kq.chon)
  }

  // ---------------------------------------------------------------- one step of the search

  lemma {:induction false} CatNgangDung(b: Bai, i: nat, daChon: BangChon)
    requires i <= |b.thuTu| && Rieng(b, i, daChon)
    ensures Dung(b, i, daChon, KetQua(daChon, CatNgang(b, i), 0))
    decreases |b.thuTu| - i
  {
    if i < |b.thuTu| {
      CatNgangDung(b, i + 1, daChon);
      assert b.thuTu[i].maMonHoc !in daChon;
      assert CatNgang(b, i)[1..] == CatNgang(b, i + 1);
    }
  }

  lemma BoQuaDung(b: Bai, i: nat, daChon: BangChon, kq: KetQua, lyDo: LyDo)
    requires i < |b.thuTu| && Rieng(b, i, daChon)
    requires Dung(b, i + 1, daChon, kq)
    ensures Dung(b, i, daChon, ThemDau(kq, b.thuTu[i].tenMonHoc, lyDo))
  {
    var r := ThemDau(kq, b.thuTu[i].tenMonHoc, lyDo);
    assert r.khongXepDuoc[1..] == kq.khongXepDuoc;
    assert b.thuTu[i].maMonHoc !in daChon;
    assert b.Ma(i) !in kq.chon;
  }

  lemma ChonDung(b: Bai, i: nat, daChon: BangChon, r: nat, kq: KetQua)
    requires i < |b.thuTu| && Rieng(b, i, daChon)
    requires r < |b.XepHang(i)| && Hop(b.XepHang(i)[r].0, daChon)
    requires Dung(b, i + 1, daChon[b.Ma(i) := b.XepHang(i)[r].0], kq)
    ensures Dung(b, i, daChon, CongDiem(kq, b.XepHang(i)[r].1))
  {
    var ma, lop := b.Ma(i), b.XepHang(i)[r].0;
    RankingSorts(b, i);
    assert b.thuTu[i].maMonHoc !in daChon;
    assert ma in daChon[ma := lop] && kq.chon[ma] == lop;
    forall k | k in kq.chon && k != ma ensures !TrungNhau(lop.lichHocs, kq.chon[k].lichHocs) {
      if k in daChon {
        assert k in daChon[ma := lop];
      } else {
        var j :| i + 1 <= j < |b.thuTu| && b.thuTu[j].maMonHoc == k;
        assert LopDung(b, j, kq.chon);
        TrungNhauSymmetric(lop.lichHocs, kq.chon[k].lichHocs);
      }
    }
    assert LopDung(b, i, kq.chon);
    forall k | k in daChon ensures k in kq.chon && kq.chon[k] == daChon[k] {
      assert k in daChon[ma := lop];
    }
  }

  lemma RiengTiep(b: Bai, i: nat, daChon: BangChon, lop: LopHoc)
    requires i < |b.thuTu| && Rieng(b, i, daChon)
    ensures Rieng(b, i + 1, daChon)
    ensures Rieng(b, i + 1, daChon[b.Ma(i) := lop])
  {
  }

  // ---------------------------------------------------------------- the whole search

  /** For any budget the result extends what was chosen with offered classes, without a new clash;
      the unplaced list is exactly the missing courses in order; the total is the sum of scores. */
  lemma {:induction false} TimDung(b: Bai, i: nat, daChon: BangChon, n: int)
    requires i <= |b.thuTu| && Rieng(b, i, daChon)
    ensures Dung(b, i, daChon, Tim(b, i, daChon, n).kq)
    decreases |b.thuTu| - i, 1, 0
  {
    if i == |b.thuTu| || n > GIOI_HAN_NUT {
      CatNgangDung(b, i, daChon);
    } else {
      var any: LopHoc :| true;
      RiengTiep(b, i, daChon, any);
      if b.UngVien(i) == [] {
        TimDung(b, i + 1, daChon, n + 1);
        BoQuaDung(b, i, daChon, Tim(b, i + 1, daChon, n + 1).kq, KhongConLop);
      } else {
        ThuLopDung(b, i, daChon, 0, n + 1, None);
        var thu := ThuLop(b, i, daChon, 0, n + 1, None);
        if thu.best.None? {
          TimDung(b, i + 1, daChon, thu.soNut);
          BoQuaDung(b, i, daChon, Tim(b, i + 1, daChon, thu.soNut).kq, TrungGio);
        }
      }
    }
  }

  lemma {:induction false} ThuLopDung(b: Bai, i: nat, daChon: BangChon, k: nat, n: int, best: Option<KetQua>)
    requires i < |b.thuTu| && k <= |b.XepHang(i)| && Rieng(b, i, daChon)
    requires best.Some? ==> Dung(b, i, daChon, best.value)
    ensures var thu := ThuLop(b, i, daChon, k, n, best);
            thu.best.Some? ==> Dung(b, i, daChon, thu.best.value)
    decreases |b.thuTu| - i, 0, |b.XepHang(i)| - k
  {
    var ds := b.XepHang(i);
    var tiep := k + 1;
    if k < |ds| && n <= GIOI_HAN_NUT {
      if !Hop(ds[k].0, daChon) {
        ThuLopDung(b, i, daChon, tiep, n, best);
      } else {
        NhanhDung(b, i, daChon, k, n);
        var sub := Tim(b, i + 1, daChon[b.Ma(i) := ds[k].0], n);
        var moi := Giu(best, CongDiem(sub.kq, ds[k].1));
        if moi.khongXepDuoc != [] {
          ThuLopDung(b, i, daChon, tiep, sub.soNut, Some(moi));
        }
      }
    }
  }

  lemma {:induction false} NhanhDung(b: Bai, i: nat, daChon: BangChon, k: nat, n: int)
    requires i < |b.thuTu| && k < |b.XepHang(i)| && Rieng(b, i, daChon) && Hop(b.XepHang(i)[k].0, daChon)
    ensures var lop := b.XepHang(i)[k];
            Dung(b, i, daChon, CongDiem(Tim(b, i + 1, daChon[b.Ma(i) := lop.0], n).kq, lop.1))
    decreases |b.thuTu| - i, 0, 0
  {
    var lop := b.XepHang(i)[k].0;
    RiengTiep(b, i, daChon, lop);
    TimDung(b, i + 1, daChon[b.Ma(i) := lop], n);
    ChonDung(b, i, daChon, k, Tim(b, i + 1, daChon[b.Ma(i) := lop], n).kq);
  }

  // ---------------------------------------------------------------- consequences

  ghost predicate KhongTrung(chon: BangChon) {
    forall k, l :: k in chon && l in chon && k != l ==> !TrungNhau(chon[k].lichHocs, chon[l].lichHocs)
  }

  /** No class that is new with respect to `cu` overlaps any other chosen class. */
  ghost predicate MoiKhongTrung(cu: BangChon, chon: BangChon) {
    forall k, l :: k in chon && l in chon && k != l && (k !in cu || l !in cu) ==>
      !TrungNhau(chon[k].lichHocs, chon[l].lichHocs)
  }

  lemma AnToanMoi(b: Bai, i: nat, daChon: BangChon, chon: BangChon)
    requires i <= |b.thuTu| && AnToan(b, i, daChon, chon)
    ensures MoiKhongTrung(daChon, chon)
  {
    forall k, l | k in chon && l in chon && k != l && (k !in daChon || l !in daChon)
      ensures !TrungNhau(chon[k].lichHocs, chon[l].lichHocs)
    {
      var moi := if k !in daChon then k else l;
      var j :| i <= j < |b.thuTu| && b.thuTu[j].maMonHoc == moi;
      assert LopDung(b, j, chon);
      TrungNhauSymmetric(chon[k].lichHocs, chon[l].lichHocs);
    }
  }

  lemma AnToanKhongTrung(b: Bai, i: nat, daChon: BangChon, chon: BangChon)
    requires i <= |b.thuTu| && AnToan(b, i, daChon, chon) && KhongTrung(daChon)
    ensures KhongTrung(chon)
  {
    AnToanMoi(b, i, daChon, chon);
  }

  /** If the fixed classes are conflict-free, so is the whole timetable, and then no class period of
      any date is used by two of its classes. */
  lemma NoCellTakenTwice(b: Bai, i: nat, daChon: BangChon, n: int)
    requires i <= |b.thuTu| && Rieng(b, i, daChon) && KhongTrung(daChon)
    ensures var chon := Tim(b, i, daChon, n).kq.chon;
            KhongTrung(chon) &&
            forall k, l, x, y, ngay, tiet ::
              (k in chon && l in chon && x in chon[k].lichHocs && y in chon[l].lichHocs &&
               Occupies(x, ngay, tiet) && Occupies(y, ngay, tiet)) ==> k == l
  {
    var chon := Tim(b, i, daChon, n).kq.chon;
    TimDung(b, i, daChon, n);
    AnToanKhongTrung(b, i, daChon, chon);
    forall k, l, x, y, ngay, tiet |
      k in chon && l in chon && x in chon[k].lichHocs && y in chon[l].lichHocs &&
      Occupies(x, ngay, tiet) && Occupies(y, ngay, tiet)
      ensures k == l
    {
      SharedCellReported(x, y);
      assert TrungVoi(x, chon[l].lichHocs);
      assert TrungNhau(chon[k].lichHocs, chon[l].lichHocs);
    }
  }

  lemma {:induction false} NothingMissing(b: Bai, i: nat, chon: BangChon)
    requires i <= |b.thuTu|
    ensures TenThieu(b, i, chon) == [] <==> forall j :: i <= j < |b.thuTu| ==> b.Ma(j) in chon
    decreases |b.thuTu| - i
  {
    if i < |b.thuTu| { NothingMissing(b, i + 1, chon); }
  }

  /** A cut-off branch never looks complete: nothing is reported unplaced exactly when every course
      from i on has a class. */
  lemma CutOffNeverComplete(b: Bai, i: nat, daChon: BangChon, n: int)
    requires i <= |b.thuTu| && Rieng(b, i, daChon)
    ensures var kq := Tim(b, i, daChon, n).kq;
            kq.khongXepDuoc == [] <==> forall j :: i <= j < |b.thuTu| ==> b.Ma(j) in kq.chon
  {
    var kq := Tim(b, i, daChon, n).kq;
    TimDung(b, i, daChon, n);
    NothingMissing(b, i, kq.chon);
    assert Ten(kq.khongXepDuoc) == [] <==> kq.khongXepDuoc == [];
  }
}
