/** How many courses a run with banned classes places, while its counter ends within the limit. */
module BienTheSoMon {
  import opened XepLich
  import opened XepLichAnToan
  import opened XepLichToiUu
  import opened BienThe

  /** The run ends within the limit. */
  ghost predicate TrongGioiHan(b: Bai, coDinh: BangChon, loaiTru: LoaiTru) {
    Tim(HanChe(b, loaiTru), 0, coDinh, 0).soNut <= GIOI_HAN_NUT
  }

  /** It leaves out at most k courses exactly when some admissible assignment without banned classes does.
      So it places more, or fewer, courses than another run exactly when the bans allow more, or fewer. */
  lemma BannedRunCount(b: Bai, coDinh: BangChon, loaiTru: LoaiTru, k: nat)
    requires TrongGioiHan(b, coDinh, loaiTru)
    ensures |ChayLai(b, coDinh, loaiTru).khongXepDuoc| <= k <==>
            exists w: PhanCong :: ChapNhan(HanChe(b, loaiTru), 0, coDinh, w) && SoBo(w) <= k
  {
    var h := HanChe(b, loaiTru);
    var v := RestrictedOptimal(h, 0, coDinh, 0);
    assert ChapNhan(h, 0, coDinh, v) && SoBo(v) == |ChayLai(b, coDinh, loaiTru).khongXepDuoc|;
  }

  /** It places every course exactly when some complete timetable without banned classes exists. */
  lemma BannedRunComplete(b: Bai, coDinh: BangChon, loaiTru: LoaiTru)
    requires Rieng(b, 0, coDinh) && TrongGioiHan(b, coDinh, loaiTru)
    ensures ChayLai(b, coDinh, loaiTru).khongXepDuoc == [] <==>
            exists tt: BangChon :: DayDu(HanChe(b, loaiTru), 0, coDinh, tt)
  {
    var h := HanChe(b, loaiTru);
    assert Rieng(h, 0, coDinh);
    if exists tt: BangChon :: DayDu(h, 0, coDinh, tt) {
      var tt: BangChon :| DayDu(h, 0, coDinh, tt);
      FirstCompleteTimetable(h, 0, coDinh, 0, tt);
    }
    if ChayLai(b, coDinh, loaiTru).khongXepDuoc == [] {
      TimDung(h, 0, coDinh, 0);
      CutOffNeverComplete(h, 0, coDinh, 0);
      assert DayDu(h, 0, coDinh, ChayLai(b, coDinh, loaiTru).chon);
    }
  }
}
