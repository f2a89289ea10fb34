/** Names read one after another, each taking the first course not yet taken that matches it: so courses
    are removed at the student's wish, and so the first tier of the solving order is filled. */
module GoiYLanLuot {
  import opened Wrappers
  import opened Collections
  import opened Entities
  import opened GoiYDanhSach

  /** The name takes course x of the list: the first match that is not among those taken before. */
  ghost predicate LayDung(ds: seq<MonHocCt>, c: YeuCau, ten: string, truoc: seq<Option<nat>>, x: Option<nat>) {
    match x
    case Some(i) =>
      && i < |ds| && c.khop(ds[i].tenMonHoc, ten) && Some(i) !in truoc
      && forall j: nat :: j < i && c.khop(ds[j].tenMonHoc, ten) ==> Some(j) in truoc
    case None =>
      forall j: nat :: j < |ds| && c.khop(ds[j].tenMonHoc, ten) ==> Some(j) in truoc
  }

  /** What the first |lay| names take, one after another. */
  ghost predicate LayLanLuot(ds: seq<MonHocCt>, c: YeuCau, tens: seq<string>, lay: seq<Option<nat>>) {
    |lay| <= |tens| && forall k :: 0 <= k < |lay| ==> LayDung(ds, c, tens[k], lay[..k], lay[k])
  }

  lemma LayThem(ds: seq<MonHocCt>, c: YeuCau, tens: seq<string>, lay: seq<Option<nat>>, x: Option<nat>)
    requires LayLanLuot(ds, c, tens, lay) && |lay| < |tens| && LayDung(ds, c, tens[|lay|], lay, x)
    ensures LayLanLuot(ds, c, tens, lay + [x])
  {
    var sau := lay + [x];
    forall k | 0 <= k < |sau| ensures LayDung(ds, c, tens[k], sau[..k], sau[k]) {
      assert sau[..k] == lay[..k];
      if k == |lay| { assert lay[..k] == lay; }
    }
  }

  /** What was taken matches a name. */
  lemma LayCoTen(ds: seq<MonHocCt>, c: YeuCau, tens: seq<string>, lay: seq<Option<nat>>, i: nat)
    requires LayLanLuot(ds, c, tens, lay)
    ensures Some(i) in lay ==> i < |ds| && exists t :: t in tens && c.khop(ds[i].tenMonHoc, t)
  {
    if Some(i) in lay {
      var k :| 0 <= k < |lay| && lay[k] == Some(i);
      assert LayDung(ds, c, tens[k], lay[..k], lay[k]);
    }
  }

  /** The courses from place i on that were not taken. */
  function ConTu(ds: seq<MonHocCt>, i: nat, lay: seq<Option<nat>>): seq<MonHocCt>
    requires i <= |ds|
    decreases |ds| - i
  {
    if i == |ds| then [] else (if Some(i) in lay then [] else [ds[i]]) + ConTu(ds, i + 1, lay)
  }

  /** The courses that were taken, in the order of the names. */
  function LayRa(ds: seq<MonHocCt>, lay: seq<Option<nat>>): seq<MonHocCt> {
    if lay == [] then []
    else
      var x := lay[|lay| - 1];
      LayRa(ds, lay[..|lay| - 1]) + if x.Some? && x.value < |ds| then [ds[x.value]] else []
  }

  lemma LayRaThem(ds: seq<MonHocCt>, lay: seq<Option<nat>>, x: Option<nat>)
    ensures LayRa(ds, lay + [x]) == LayRa(ds, lay) + if x.Some? && x.value < |ds| then [ds[x.value]] else []
  {
    assert (lay + [x])[..|lay|] == lay;
  }

  lemma {:induction false} LayRaTrong(ds: seq<MonHocCt>, lay: seq<Option<nat>>, m: MonHocCt)
    ensures m in LayRa(ds, lay) <==> exists i: nat :: i < |ds| && ds[i] == m && Some(i) in lay
  {
    if lay != [] {
      LayRaTrong(ds, lay[..|lay| - 1], m);
      assert lay == lay[..|lay| - 1] + [lay[|lay| - 1]];
    }
  }

  lemma ConTuBuoc(ds: seq<MonHocCt>, i: nat, lay: seq<Option<nat>>)
    requires i < |ds|
    ensures ConTu(ds, i, lay) == if Some(i) in lay then ConTu(ds, i + 1, lay) else [ds[i]] + ConTu(ds, i + 1, lay)
  {
    assert [] + ConTu(ds, i + 1, lay) == ConTu(ds, i + 1, lay);
  }

  /** Course m stands at place j and was not taken. */
  ghost predicate ConO(ds: seq<MonHocCt>, lay: seq<Option<nat>>, m: MonHocCt, j: nat) {
    j < |ds| && ds[j] == m && Some(j) !in lay
  }

  lemma {:induction false} ConTuTrong(ds: seq<MonHocCt>, i: nat, lay: seq<Option<nat>>, m: MonHocCt)
    requires i <= |ds|
    ensures m in ConTu(ds, i, lay) <==> exists j: nat :: i <= j && ConO(ds, lay, m, j)
    decreases |ds| - i
  {
    if i < |ds| {
      ConTuTrong(ds, i + 1, lay, m);
      ConTuBuoc(ds, i, lay);
      assert ConO(ds, lay, m, i) <==> ds[i] == m && Some(i) !in lay;
    }
  }

  lemma {:induction false} ConTuHet(ds: seq<MonHocCt>, i: nat)
    requires i <= |ds|
    ensures ConTu(ds, i, []) == ds[i..]
    decreases |ds| - i
  {
    if i < |ds| { ConTuHet(ds, i + 1); }
  }

  // ---------------------------------------------------------------- removal

  lemma TimBoQua(ds: seq<MonHocCt>, i: nat, lay: seq<Option<nat>>, c: YeuCau, ten: string)
    requires i < |ds| && (Some(i) in lay || !c.khop(ds[i].tenMonHoc, ten))
    ensures TimTheoTen(ConTu(ds, i, lay), c, ten) == TimTheoTen(ConTu(ds, i + 1, lay), c, ten)
  {
    if Some(i) in lay {
      assert ConTu(ds, i, lay) == ConTu(ds, i + 1, lay);
    } else {
      assert ConTu(ds, i, lay)[1..] == ConTu(ds, i + 1, lay);
    }
  }

  /** The first match among the remaining courses. */
  lemma {:induction false} TimConLai(ds: seq<MonHocCt>, i: nat, lay: seq<Option<nat>>, c: YeuCau, ten: string)
      returns (x: Option<nat>)
    requires i <= |ds|
    ensures match x
            case Some(j) =>
              && i <= j < |ds| && c.khop(ds[j].tenMonHoc, ten) && Some(j) !in lay
              && (forall k: nat :: i <= k < j && c.khop(ds[k].tenMonHoc, ten) ==> Some(k) in lay)
              && TimTheoTen(ConTu(ds, i, lay), c, ten) == Some(ds[j])
            case None =>
              && (forall k: nat :: i <= k < |ds| && c.khop(ds[k].tenMonHoc, ten) ==> Some(k) in lay)
              && TimTheoTen(ConTu(ds, i, lay), c, ten) == None
    decreases |ds| - i
  {
    if i == |ds| {
      x := None;
    } else if Some(i) !in lay && c.khop(ds[i].tenMonHoc, ten) {
      x := Some(i);
    } else {
      x := TimConLai(ds, i + 1, lay, c, ten);
      TimBoQua(ds, i, lay, c, ten);
    }
  }

  lemma {:induction false} ConTuBoTruoc(ds: seq<MonHocCt>, i: nat, lay: seq<Option<nat>>, j: nat)
    requires j < i <= |ds|
    ensures ConTu(ds, i, lay + [Some(j)]) == ConTu(ds, i, lay)
    decreases |ds| - i
  {
    if i < |ds| {
      ConTuBoTruoc(ds, i + 1, lay, j);
      ConTuBuoc(ds, i, lay);
      ConTuBuoc(ds, i, lay + [Some(j)]);
      assert Some(i) in lay + [Some(j)] <==> Some(i) in lay;
    }
  }

  lemma {:induction false} BoMotConTu(ds: seq<MonHocCt>, i: nat, lay: seq<Option<nat>>, j: nat)
    requires Distinct(ds) && i <= j < |ds| && Some(j) !in lay
    ensures BoMot(ConTu(ds, i, lay), ds[j]) == ConTu(ds, i, lay + [Some(j)])
    decreases |ds| - i
  {
    var sau := lay + [Some(j)];
    ConTuBuoc(ds, i, lay);
    ConTuBuoc(ds, i, sau);
    assert ([ds[i]] + ConTu(ds, i + 1, lay))[1..] == ConTu(ds, i + 1, lay);
    if i == j {
      ConTuBoTruoc(ds, i + 1, lay, j);
    } else {
      BoMotConTu(ds, i + 1, lay, j);
      assert Some(i) in sau <==> Some(i) in lay;
    }
  }

  /** A name that takes nothing leaves the rest as it is. */
  lemma {:induction false} ConTuKhongDoi(ds: seq<MonHocCt>, i: nat, lay: seq<Option<nat>>)
    requires i <= |ds|
    ensures ConTu(ds, i, lay + [None]) == ConTu(ds, i, lay)
    decreases |ds| - i
  {
    if i < |ds| {
      ConTuKhongDoi(ds, i + 1, lay);
      ConTuBuoc(ds, i, lay);
      ConTuBuoc(ds, i, lay + [None]);
      assert Some(i) in lay + [None] <==> Some(i) in lay;
    }
  }

  lemma BoBuoc(ms: seq<MonHocCt>, bo: seq<MonHocCt>, c: YeuCau, tens: seq<string>, t: Option<MonHocCt>)
    requires tens != [] && t == TimTheoTen(ms, c, tens[0])
    ensures BoTheoTen(ms, bo, c, tens) ==
            if t.Some? then BoTheoTen(BoMot(ms, t.value), bo + [t.value], c, tens[1..])
            else BoTheoTen(ms, bo, c, tens[1..])
  {
  }

  /** What one name changes. */
  lemma BoMotTen(ds: seq<MonHocCt>, c: YeuCau, lay: seq<Option<nat>>, ten: string, tens: seq<string>, duoi: seq<string>)
      returns (x: Option<nat>, sau: seq<Option<nat>>)
    requires Distinct(ds) && tens != [] && ten == tens[0] && duoi == tens[1..]
    ensures LayDung(ds, c, ten, lay, x) && sau == lay + [x]
    ensures BoTheoTen(ConTu(ds, 0, lay), LayRa(ds, lay), c, tens) ==
            BoTheoTen(ConTu(ds, 0, sau), LayRa(ds, sau), c, duoi)
  {
    x := TimConLai(ds, 0, lay, c, ten);
    sau := lay + [x];
    LayRaThem(ds, lay, x);
    match x
    case Some(i) =>
      BoMotConTu(ds, 0, lay, i);
      BoBuoc(ConTu(ds, 0, lay), LayRa(ds, lay), c, tens, Some(ds[i]));
    case None =>
      ConTuKhongDoi(ds, 0, lay);
      assert LayRa(ds, lay) + [] == LayRa(ds, lay);
      BoBuoc(ConTu(ds, 0, lay), LayRa(ds, lay), c, tens, None);
  }

  /** Removal by name: what is left and what was removed. */
  lemma {:induction false} BoLanLuot(ds: seq<MonHocCt>, c: YeuCau, tens: seq<string>, lay: seq<Option<nat>>, k: nat)
      returns (het: seq<Option<nat>>)
    requires Distinct(ds) && LayLanLuot(ds, c, tens, lay) && k == |lay|
    ensures |het| == |tens| && LayLanLuot(ds, c, tens, het)
    ensures BoTheoTen(ConTu(ds, 0, lay), LayRa(ds, lay), c, tens[k..]) == (ConTu(ds, 0, het), LayRa(ds, het))
    decreases |tens| - k
  {
    if k == |tens| {
      het := lay;
    } else {
      assert tens[k..][1..] == tens[k + 1..];
      var x, sau := BoMotTen(ds, c, lay, tens[k], tens[k..], tens[k + 1..]);
      LayThem(ds, c, tens, lay, x);
      het := BoLanLuot(ds, c, tens, sau, k + 1);
    }
  }

  // ---------------------------------------------------------------- the first tier

  function TenUuTien(us: seq<UuTien>): (r: seq<string>)
    ensures |r| == |us| && forall i :: 0 <= i < |us| ==> r[i] == us[i].tenMonHoc
  {
    if us == [] then [] else [us[0].tenMonHoc] + TenUuTien(us[1..])
  }

  lemma LayRaChua(ds: seq<MonHocCt>, lay: seq<Option<nat>>, i: nat)
    requires Distinct(ds) && i < |ds|
    ensures ds[i] in LayRa(ds, lay) <==> Some(i) in lay
  {
    LayRaTrong(ds, lay, ds[i]);
  }

  lemma {:induction false} NgoaiConLai(ds: seq<MonHocCt>, i: nat, lay: seq<Option<nat>>, c: YeuCau, ten: string)
      returns (x: Option<nat>)
    requires Distinct(ds) && i <= |ds|
    ensures match x
            case Some(j) =>
              && i <= j < |ds| && c.khop(ds[j].tenMonHoc, ten) && Some(j) !in lay
              && (forall k: nat :: i <= k < j && c.khop(ds[k].tenMonHoc, ten) ==> Some(k) in lay)
              && TimTheoTenNgoai(ds[i..], LayRa(ds, lay), c, ten) == Some(ds[j])
            case None =>
              && (forall k: nat :: i <= k < |ds| && c.khop(ds[k].tenMonHoc, ten) ==> Some(k) in lay)
              && TimTheoTenNgoai(ds[i..], LayRa(ds, lay), c, ten) == None
    decreases |ds| - i
  {
    if i == |ds| {
      x := None;
    } else {
      LayRaChua(ds, lay, i);
      if Some(i) !in lay && c.khop(ds[i].tenMonHoc, ten) {
        x := Some(i);
      } else {
        x := NgoaiConLai(ds, i + 1, lay, c, ten);
        assert ds[i..][1..] == ds[i + 1..];
      }
    }
  }

  lemma TangBuoc(ms: seq<MonHocCt>, dau: seq<MonHocCt>, c: YeuCau, us: seq<UuTien>, t: Option<MonHocCt>)
    requires us != [] && t == TimTheoTenNgoai(ms, dau, c, us[0].tenMonHoc)
    ensures TangMot(ms, dau, c, us) == TangMot(ms, if t.Some? then dau + [t.value] else dau, c, us[1..])
  {
  }

  lemma TangMotTen(ds: seq<MonHocCt>, c: YeuCau, lay: seq<Option<nat>>, us: seq<UuTien>, duoi: seq<UuTien>)
      returns (x: Option<nat>, sau: seq<Option<nat>>)
    requires Distinct(ds) && us != [] && duoi == us[1..]
    ensures LayDung(ds, c, us[0].tenMonHoc, lay, x) && sau == lay + [x]
    ensures TangMot(ds, LayRa(ds, lay), c, us) == TangMot(ds, LayRa(ds, sau), c, duoi)
  {
    x := NgoaiConLai(ds, 0, lay, c, us[0].tenMonHoc);
    assert ds[0..] == ds;
    sau := lay + [x];
    LayRaThem(ds, lay, x);
    TangBuoc(ds, LayRa(ds, lay), c, us, if x.Some? then Some(ds[x.value]) else None);
    assert LayRa(ds, lay) + [] == LayRa(ds, lay);
  }

  /** The named preferences take their courses in turn. */
  lemma {:induction false} MotLanLuot(ds: seq<MonHocCt>, c: YeuCau, us: seq<UuTien>, lay: seq<Option<nat>>, k: nat)
      returns (het: seq<Option<nat>>)
    requires Distinct(ds) && LayLanLuot(ds, c, TenUuTien(us), lay) && k == |lay|
    ensures |het| == |us| && LayLanLuot(ds, c, TenUuTien(us), het)
    ensures TangMot(ds, LayRa(ds, lay), c, us[k..]) == LayRa(ds, het)
    decreases |us| - k
  {
    if k == |us| {
      het := lay;
    } else {
      assert us[k..][1..] == us[k + 1..];
      var x, sau := TangMotTen(ds, c, lay, us[k..], us[k + 1..]);
      LayThem(ds, c, TenUuTien(us), lay, x);
      het := MotLanLuot(ds, c, us, sau, k + 1);
    }
  }
}
