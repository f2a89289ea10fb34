/** A concrete answer with two sources and a proposed action, of which the page can read nothing. */
module ViDuChatbot {
  import opened Wrappers
  import opened ChatbotStream

  const HAI_NGUON := [NguonTraLoi(1, "a.pdf", 3), NguonTraLoi(2, "b.pdf", 8)]
  const DANG_KY := HanhDongCho("dang_ky_lop_hoc", 7, "Toán 1")

  /** The token arrives; the two sources make one line without a name, and the class to register is
      undefined. */
  lemma ClosingEventUnread(js: Json, pieces: seq<string>)
    requires JsonDung(js) && Gop(pieces) == CacSuKien(js, CacMieng(["Xong"]) + [Ket(HAI_NGUON, Some(DANG_KY))])
    ensures var kq := DocCac(js, pieces, "", RONG).1;
            && kq.deltas == [Chu("Xong")] && kq.nguon.Mang? && |kq.nguon.phanTu| == 2
            && TenFileHien(kq.nguon.phanTu) == {None} && kq.hanhDong != Rong && Doc(kq.hanhDong, "maLopHocKy") == None
  {
    StreamRoundTrip(js, ["Xong"], HAI_NGUON, Some(DANG_KY), pieces);
    ClosingEventExact(js, ["Xong"], HAI_NGUON, Some(DANG_KY), pieces);
    MotToken("Xong");
    assert TEN_HANH_DONG[1] == "maLopHocKy" && TEN_HANH_DONG[1] in TEN_HANH_DONG;
  }

  lemma MotToken(t: string)
    requires t != ""
    ensures CacChu(KhacRong([t])) == [Chu(t)]
  {
    var rong: seq<string> := [];
    assert [t][1..] == rong && KhacRong(rong) == [];
    assert KhacRong([t]) == [t] + [];
  }
}
