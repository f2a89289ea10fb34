/** The list the solver gets is a permutation of the courses to place, and every suggestion built
    from its results is sound with respect to the tables. */
module GoiYAnToan {
  import opened Wrappers
  import opened Collections
  import opened Entities
  import opened XepLich
  import opened TuChon
  import opened GoiYDanhSach
  import opened GoiYLanLuot

  ghost predicate KhongLap(ms: seq<MonHocCt>) {
    forall i, j :: 0 <= i < j < |ms| ==> ms[i].maMonHoc != ms[j].maMonHoc
  }

  ghost predicate LayTu(ms: seq<MonHocCt>, ct: seq<MonHocCt>) {
    KhongLap(ms) && forall m :: m in ms ==> m in ct
  }

  // ---------------------------------------------------------------- filters and sorting

  lemma CungMaCungMon(ct: seq<MonHocCt>, a: MonHocCt, b: MonHocCt)
    requires KhongLap(ct) && a in ct && b in ct && a.maMonHoc == b.maMonHoc
    ensures a == b
  {
  }

  lemma {:induction false} BatBuocLayTu(ct: seq<MonHocCt>, c: YeuCau, kyDat: int)
    requires KhongLap(ct)
    ensures LayTu(BatBuocCanXep(ct, c, kyDat), ct)
    ensures forall m :: m in BatBuocCanXep(ct, c, kyDat) <==> m in ct && CanXepMacDinh(m, c, kyDat)
  {
    if ct != [] {
      BatBuocLayTu(ct[1..], c, kyDat);
      assert forall m :: m in ct <==> m == ct[0] || m in ct[1..];
      var sau := BatBuocCanXep(ct[1..], c, kyDat);
      assert forall i :: 0 <= i < |sau| ==> sau[i] in sau;
    }
  }

  lemma {:induction false} TimTheoTenTrong(ct: seq<MonHocCt>, c: YeuCau, ten: string)
    ensures var t := TimTheoTen(ct, c, ten); t.Some? ==> t.value in ct && c.khop(t.value.tenMonHoc, ten)
    ensures TimTheoTen(ct, c, ten).None? ==> forall m :: m in ct ==> !c.khop(m.tenMonHoc, ten)
  {
    if ct != [] { TimTheoTenTrong(ct[1..], c, ten); }
  }

  lemma {:induction false} ThemTheoTenLayTu(ms: seq<MonHocCt>, ct: seq<MonHocCt>, c: YeuCau, lops: LopTheoMon,
      tens: seq<string>)
    requires LayTu(ms, ct)
    ensures LayTu(ThemTheoTen(ms, ct, c, lops, tens), ct)
    decreases |tens|
  {
    if tens != [] {
      TimTheoTenTrong(ct, c, tens[0]);
      var t := TimTheoTen(ct, c, tens[0]);
      if t.Some? && t.value.maMonHoc in lops && !CoMa(ms, t.value.maMonHoc) &&
         (t.value.trangThai != DaDat || t.value.caiThien)
      {
        assert forall i :: 0 <= i < |ms| ==> ms[i] in ms;
        ThemTheoTenLayTu(ms + [t.value], ct, c, lops, tens[1..]);
      } else {
        ThemTheoTenLayTu(ms, ct, c, lops, tens[1..]);
      }
    }
  }

  /** Some of these names picks the course out of the curriculum. */
  ghost predicate DuocNeu(ct: seq<MonHocCt>, c: YeuCau, tens: seq<string>, m: MonHocCt) {
    exists t :: t in tens && TimTheoTen(ct, c, t) == Some(m)
  }

  /** Whatever was added was named, and is not done with. */
  lemma {:induction false} ThemTheoTenNguon(
      ms: seq<MonHocCt>, ct: seq<MonHocCt>, c: YeuCau, lops: LopTheoMon, tens: seq<string>, m: MonHocCt)
    requires m in ThemTheoTen(ms, ct, c, lops, tens)
    ensures m in ms || (DuocNeu(ct, c, tens, m) && (m.trangThai != DaDat || m.caiThien))
    decreases |tens|
  {
    if tens != [] {
      var t := TimTheoTen(ct, c, tens[0]);
      var dau := if t.Some? && t.value.maMonHoc in lops && !CoMa(ms, t.value.maMonHoc) &&
                    (t.value.trangThai != DaDat || t.value.caiThien) then ms + [t.value] else ms;
      ThemTheoTenNguon(dau, ct, c, lops, tens[1..], m);
      assert tens[0] in tens && forall x :: x in tens[1..] ==> x in tens;
    }
  }

  lemma {:induction false} ThemTheoTenGiu(
      ms: seq<MonHocCt>, ct: seq<MonHocCt>, c: YeuCau, lops: LopTheoMon, tens: seq<string>, m: MonHocCt)
    requires m in ms
    ensures m in ThemTheoTen(ms, ct, c, lops, tens)
    decreases |tens|
  {
    if tens != [] {
      var t := TimTheoTen(ct, c, tens[0]);
      var dau := if t.Some? && t.value.maMonHoc in lops && !CoMa(ms, t.value.maMonHoc) &&
                    (t.value.trangThai != DaDat || t.value.caiThien) then ms + [t.value] else ms;
      assert m in dau;
      ThemTheoTenGiu(dau, ct, c, lops, tens[1..], m);
    }
  }

  /** A course asked for by name that has a free class and is not done with is added. */
  lemma {:induction false} ThemTheoTenDu(
      ms: seq<MonHocCt>, ct: seq<MonHocCt>, c: YeuCau, lops: LopTheoMon, tens: seq<string>, m: MonHocCt)
    requires KhongLap(ct) && m in ct && (forall x :: x in ms ==> x in ct) && DuocNeu(ct, c, tens, m)
    requires m.maMonHoc in lops && (m.trangThai != DaDat || m.caiThien)
    ensures m in ThemTheoTen(ms, ct, c, lops, tens)
    decreases |tens|
  {
    var t := TimTheoTen(ct, c, tens[0]);
    TimTheoTenTrong(ct, c, tens[0]);
    var dau := if t.Some? && t.value.maMonHoc in lops && !CoMa(ms, t.value.maMonHoc) &&
                  (t.value.trangThai != DaDat || t.value.caiThien) then ms + [t.value] else ms;
    if t == Some(m) {
      if CoMa(ms, m.maMonHoc) {
        var x :| x in ms && x.maMonHoc == m.maMonHoc;
        CungMaCungMon(ct, x, m);
      }
      assert m in dau;
      ThemTheoTenGiu(dau, ct, c, lops, tens[1..], m);
    } else {
      assert forall x :: x in tens <==> x == tens[0] || x in tens[1..];
      ThemTheoTenDu(dau, ct, c, lops, tens[1..], m);
    }
  }

  lemma {:induction false} BoMotNghia(ms: seq<MonHocCt>, m: MonHocCt, x: MonHocCt)
    requires KhongLap(ms)
    ensures x in BoMot(ms, m) <==> x in ms && x != m
  {
    if ms != [] {
      assert forall y :: y in ms <==> y == ms[0] || y in ms[1..];
      if ms[0] == m {
        assert forall i :: 0 <= i < |ms[1..]| ==> ms[1..][i] == ms[i + 1];
      } else {
        BoMotNghia(ms[1..], m, x);
      }
    }
  }

  /** Another course that matches the name was removed in its place. */
  ghost predicate BoThay(bo: seq<MonHocCt>, c: YeuCau, m: MonHocCt, t: string) {
    exists x :: x in bo && x != m && c.khop(x.tenMonHoc, t)
  }

  /** Removal by name takes the first match of each name. A match that is left stands behind another
      one that was removed; without matches nothing is removed. */
  lemma {:induction false} BoTheoTenNghia(ms: seq<MonHocCt>, bo: seq<MonHocCt>, c: YeuCau, tens: seq<string>)
    requires KhongLap(ms)
    ensures var r := BoTheoTen(ms, bo, c, tens);
            && (forall x :: x in bo ==> x in r.1) && (forall x :: x in ms ==> x in r.0 || x in r.1)
            && (forall m, t :: m in r.0 && t in tens && c.khop(m.tenMonHoc, t) ==> BoThay(r.1, c, m, t))
    decreases |tens|
  {
    if tens != [] {
      var t0, sau := tens[0], tens[1..];
      var t, r := TimTheoTen(ms, c, t0), BoTheoTen(ms, bo, c, tens);
      TimTheoTenTrong(ms, c, t0);
      assert forall x :: x in tens <==> x == t0 || x in sau;
      if t.Some? {
        var con := BoMot(ms, t.value);
        BoMotLayTu(ms, t.value, ms);
        forall x ensures x in con <==> x in ms && x != t.value { BoMotNghia(ms, t.value, x); }
        BoTheoTenNghia(con, bo + [t.value], c, sau);
        BoTheoTenLayTu(con, bo + [t.value], c, sau, ms);
        assert t.value in bo + [t.value] && t.value in r.1;
      } else {
        BoTheoTenNghia(ms, bo, c, sau);
        BoTheoTenLayTu(ms, bo, c, sau, ms);
      }
    }
  }

  lemma {:induction false} BoTheoTenTu(ms: seq<MonHocCt>, bo: seq<MonHocCt>, c: YeuCau, tens: seq<string>, x: MonHocCt)
    requires KhongLap(ms) && x in BoTheoTen(ms, bo, c, tens).1
    ensures x in bo || x in ms
    decreases |tens|
  {
    if tens != [] {
      var t := TimTheoTen(ms, c, tens[0]);
      TimTheoTenTrong(ms, c, tens[0]);
      if t.Some? {
        BoMotLayTu(ms, t.value, ms);
        BoTheoTenTu(BoMot(ms, t.value), bo + [t.value], c, tens[1..], x);
      } else {
        BoTheoTenTu(ms, bo, c, tens[1..], x);
      }
    }
  }

  lemma {:induction false} BoMotLayTu(ms: seq<MonHocCt>, m: MonHocCt, ct: seq<MonHocCt>)
    requires LayTu(ms, ct)
    ensures LayTu(BoMot(ms, m), ct)
    ensures forall x :: x in BoMot(ms, m) ==> x in ms
  {
    if ms != [] {
      assert forall x :: x in ms <==> x == ms[0] || x in ms[1..];
      if ms[0] != m {
        BoMotLayTu(ms[1..], m, ct);
        var sau := BoMot(ms[1..], m);
        assert forall i :: 0 <= i < |sau| ==> sau[i] in sau;
      }
    }
  }

  lemma {:induction false} BoTheoTenLayTu(ms: seq<MonHocCt>, bo: seq<MonHocCt>, c: YeuCau, tens: seq<string>,
      ct: seq<MonHocCt>)
    requires LayTu(ms, ct)
    ensures LayTu(BoTheoTen(ms, bo, c, tens).0, ct)
    ensures forall x :: x in BoTheoTen(ms, bo, c, tens).0 ==> x in ms
    decreases |tens|
  {
    if tens != [] {
      var t := TimTheoTen(ms, c, tens[0]);
      if t.Some? {
        BoMotLayTu(ms, t.value, ct);
        BoTheoTenLayTu(BoMot(ms, t.value), bo + [t.value], c, tens[1..], ct);
      } else {
        BoTheoTenLayTu(ms, bo, c, tens[1..], ct);
      }
    }
  }

  lemma {:induction false} BoMaNghia(ms: seq<MonHocCt>, ma: set<nat>, x: MonHocCt)
    ensures x in BoMa(ms, ma) <==> x in ms && x.maMonHoc !in ma
  {
    if ms != [] {
      BoMaNghia(ms[1..], ma, x);
      assert x in ms <==> x == ms[0] || x in ms[1..];
    }
  }

  lemma {:induction false} BoMaLayTu(ms: seq<MonHocCt>, ma: set<nat>, ct: seq<MonHocCt>)
    requires LayTu(ms, ct)
    ensures LayTu(BoMa(ms, ma), ct)
    ensures forall x :: x in BoMa(ms, ma) <==> x in ms && x.maMonHoc !in ma
  {
    forall x ensures x in BoMa(ms, ma) <==> x in ms && x.maMonHoc !in ma { BoMaNghia(ms, ma, x); }
    if ms != [] {
      var sau := BoMa(ms[1..], ma);
      BoMaLayTu(ms[1..], ma, ct);
      forall i | 0 <= i < |sau| ensures sau[i] != ms[0] && sau[i].maMonHoc != ms[0].maMonHoc {
        assert sau[i] in sau && sau[i] in ms[1..];
      }
    }
  }

  lemma {:induction false} TruLayTu(ms: seq<MonHocCt>, bo: seq<MonHocCt>)
    requires KhongLap(ms)
    ensures KhongLap(Tru(ms, bo)) && forall x :: x in Tru(ms, bo) <==> x in ms && x !in bo
  {
    if ms != [] {
      assert forall x :: x in ms <==> x == ms[0] || x in ms[1..];
      TruLayTu(ms[1..], bo);
      var sau := Tru(ms[1..], bo);
      assert forall i :: 0 <= i < |sau| ==> sau[i] in sau;
    }
  }

  lemma {:induction false} HaiLayTu(ms: seq<MonHocCt>, dau: seq<MonHocCt>, c: YeuCau)
    requires KhongLap(ms)
    ensures KhongLap(TangHai(ms, dau, c)) && forall x :: x in TangHai(ms, dau, c) ==> x in ms && x !in dau
  {
    if ms != [] {
      assert forall x :: x in ms <==> x == ms[0] || x in ms[1..];
      HaiLayTu(ms[1..], dau, c);
      var sau := TangHai(ms[1..], dau, c);
      assert forall i :: 0 <= i < |sau| ==> sau[i] in sau;
    }
  }

  lemma {:induction false} NgoaiTrong(ms: seq<MonHocCt>, dau: seq<MonHocCt>, c: YeuCau, ten: string)
    ensures var t := TimTheoTenNgoai(ms, dau, c, ten); t.Some? ==> t.value in ms && t.value !in dau
  {
    if ms != [] { NgoaiTrong(ms[1..], dau, c, ten); }
  }

  lemma {:induction false} MotLayTu(ms: seq<MonHocCt>, dau: seq<MonHocCt>, c: YeuCau, us: seq<UuTien>)
    requires KhongLap(ms) && LayTu(dau, ms)
    ensures LayTu(TangMot(ms, dau, c, us), ms)
    decreases |us|
  {
    if us != [] {
      NgoaiTrong(ms, dau, c, us[0].tenMonHoc);
      var t := TimTheoTenNgoai(ms, dau, c, us[0].tenMonHoc);
      if t.Some? {
        forall i | 0 <= i < |dau| ensures dau[i].maMonHoc != t.value.maMonHoc {
          assert dau[i] in dau;
          if dau[i].maMonHoc == t.value.maMonHoc { CungMaCungMon(ms, dau[i], t.value); }
        }
        MotLayTu(ms, dau + [t.value], c, us[1..]);
      } else {
        MotLayTu(ms, dau, c, us[1..]);
      }
    }
  }

  lemma HoanViKhongLap(s: seq<(MonHocCt, int)>, t: seq<(MonHocCt, int)>, i: nat, j: nat)
    requires forall p, q :: 0 <= p < q < |s| ==> s[p].0.maMonHoc != s[q].0.maMonHoc
    requires multiset(s) == multiset(t) && i < j < |t|
    ensures t[i].0.maMonHoc != t[j].0.maMonHoc
  {
    assert Distinct(s);
    PermutationDistinct(s, t);
    assert t[i] in multiset(s) && t[j] in multiset(s);
  }

  ghost predicate CoMuc(s: seq<(MonHocCt, int)>, x: MonHocCt) { exists k :: 0 <= k < |s| && s[k].0 == x }

  lemma HoanViCungMuc(s: seq<(MonHocCt, int)>, t: seq<(MonHocCt, int)>, x: MonHocCt)
    requires multiset(s) == multiset(t) && CoMuc(s, x)
    ensures CoMuc(t, x)
  {
    var k :| 0 <= k < |s| && s[k].0 == x;
    assert s[k] in multiset(t);
  }

  lemma BoKhoaMuc(s: seq<(MonHocCt, int)>, x: MonHocCt)
    ensures x in BoKhoa(s) <==> CoMuc(s, x)
  {
    if CoMuc(s, x) {
      var k :| 0 <= k < |s| && s[k].0 == x;
      assert BoKhoa(s)[k] == x;
    }
  }

  lemma KemSoLopMuc(ms: seq<MonHocCt>, lops: LopTheoMon, dau: int, x: MonHocCt)
    ensures CoMuc(KemSoLop(ms, lops, dau), x) <==> x in ms
  {
    var s := KemSoLop(ms, lops, dau);
    if x in ms {
      var k :| 0 <= k < |ms| && ms[k] == x;
      assert s[k].0 == x;
    }
  }

  lemma SapXepCungMon(ms: seq<MonHocCt>, lops: LopTheoMon, dau: int, x: MonHocCt)
    ensures x in BoKhoa(StableDescending(KemSoLop(ms, lops, dau))) <==> x in ms
  {
    var s := KemSoLop(ms, lops, dau);
    var t := StableDescending(s);
    StableDescendingSorts(s);
    KemSoLopMuc(ms, lops, dau, x);
    BoKhoaMuc(t, x);
    if CoMuc(s, x) { HoanViCungMuc(s, t, x); }
    if CoMuc(t, x) { HoanViCungMuc(t, s, x); }
  }

  /** Sorting keeps the courses distinct and loses none. */
  lemma SapXepGiuMon(ms: seq<MonHocCt>, lops: LopTheoMon, dau: int)
    requires KhongLap(ms)
    ensures var r := BoKhoa(StableDescending(KemSoLop(ms, lops, dau)));
            KhongLap(r) && forall x :: x in r <==> x in ms
  {
    var s := KemSoLop(ms, lops, dau);
    var t := StableDescending(s);
    var r := BoKhoa(t);
    StableDescendingSorts(s);
    forall x ensures x in r <==> x in ms { SapXepCungMon(ms, lops, dau, x); }
    forall i, j | 0 <= i < j < |r| ensures r[i].maMonHoc != r[j].maMonHoc {
      HoanViKhongLap(s, t, i, j);
    }
  }

  lemma NoiKhongLap(a: seq<MonHocCt>, b: seq<MonHocCt>, ms: seq<MonHocCt>)
    requires KhongLap(a) && KhongLap(b) && KhongLap(ms)
    requires (forall x :: x in a ==> x in ms) && (forall x :: x in b ==> x in ms && x !in a)
    ensures KhongLap(a + b) && forall x :: x in a + b <==> x in a || x in b
  {
    forall i, j | 0 <= i < |a| && 0 <= j < |b| ensures a[i].maMonHoc != b[j].maMonHoc {
      assert a[i] in a && b[j] in b;
      if a[i].maMonHoc == b[j].maMonHoc { CungMaCungMon(ms, a[i], b[j]); }
    }
  }

  lemma {:induction false} HaiNghia(ms: seq<MonHocCt>, dau: seq<MonHocCt>, c: YeuCau, x: MonHocCt)
    ensures x in TangHai(ms, dau, c) <==>
            x in ms && x !in dau && KhopMotTrong(c, x.tenMonHoc, c.monTuChonMuonHoc + c.monCanHocLai)
  {
    if ms != [] { HaiNghia(ms[1..], dau, c, x); }
  }

  lemma KhongLapRieng(ms: seq<MonHocCt>)
    requires KhongLap(ms)
    ensures Distinct(ms)
  {
  }

  /** Fewest classes first. */
  ghost predicate ItLopTruoc(ms: seq<MonHocCt>, lops: LopTheoMon) {
    forall i, j :: 0 <= i < j < |ms| ==> SoLop(ms[i], lops) <= SoLop(ms[j], lops)
  }

  lemma BaItLopTruoc(ms: seq<MonHocCt>, lops: LopTheoMon)
    ensures ItLopTruoc(BoKhoa(StableDescending(KemSoLop(ms, lops, -1))), lops)
  {
    var s := KemSoLop(ms, lops, -1);
    var t := StableDescending(s);
    var r := BoKhoa(t);
    StableDescendingSorts(s);
    forall i | 0 <= i < |t| ensures t[i].1 + SoLop(t[i].0, lops) == 0 {
      assert t[i] in multiset(s);
    }
    forall i, j | 0 <= i < j < |r| ensures SoLop(r[i], lops) <= SoLop(r[j], lops) {
      assert t[i].1 >= t[j].1;
    }
  }

  /** The solving order is a permutation of the courses to place, in three tiers: for each named lecturer or
      class in turn the first course not yet taken that matches, then the other courses asked for by name,
      then the rest, those with the fewest classes first. */
  lemma SolvingOrderPermutes(ms: seq<MonHocCt>, c: YeuCau, lops: LopTheoMon)
      returns (mot: seq<MonHocCt>, hai: seq<MonHocCt>, ba: seq<MonHocCt>, lay: seq<Option<nat>>)
    requires KhongLap(ms)
    ensures var r := ThuTuGiai(ms, c, lops); r == mot + hai + ba && KhongLap(r) && forall x :: x in r <==> x in ms
    ensures |lay| == |c.thuTuUuTien| && LayLanLuot(ms, c, TenUuTien(c.thuTuUuTien), lay) && mot == LayRa(ms, lay)
    ensures forall x :: x in hai <==>
              x in ms && x !in mot && KhopMotTrong(c, x.tenMonHoc, c.monTuChonMuonHoc + c.monCanHocLai)
    ensures ItLopTruoc(ba, lops)
  {
    mot := TangMot(ms, [], c, c.thuTuUuTien);
    hai := TangHai(ms, mot, c);
    ba := TangBa(ms, mot, hai, lops);
    BaTangHoanVi(ms, c, lops);
    assert c.thuTuUuTien[0..] == c.thuTuUuTien;
    KhongLapRieng(ms);
    lay := MotLanLuot(ms, c, c.thuTuUuTien, [], 0);
    forall x ensures x in hai <==>
              x in ms && x !in mot && KhopMotTrong(c, x.tenMonHoc, c.monTuChonMuonHoc + c.monCanHocLai) {
      HaiNghia(ms, mot, c, x);
    }
    BaItLopTruoc(Tru(Tru(ms, mot), hai), lops);
  }

  lemma BaTangHoanVi(ms: seq<MonHocCt>, c: YeuCau, lops: LopTheoMon)
    requires KhongLap(ms)
    ensures var r := ThuTuGiai(ms, c, lops); KhongLap(r) && forall x :: x in r <==> x in ms
  {
    var mot := TangMot(ms, [], c, c.thuTuUuTien);
    var hai := TangHai(ms, mot, c);
    var con := Tru(Tru(ms, mot), hai);
    var ba := TangBa(ms, mot, hai, lops);
    MotLayTu(ms, [], c, c.thuTuUuTien);
    HaiLayTu(ms, mot, c);
    TruLayTu(ms, mot);
    TruLayTu(Tru(ms, mot), hai);
    SapXepGiuMon(con, lops, -1);
    NoiKhongLap(mot, hai, ms);
    NoiKhongLap(mot + hai, ba, ms);
  }

  lemma {:induction false} LocUngVienLayTu(ct: seq<MonHocCt>, c: YeuCau, daDangKy: set<nat>, chon: BangChon,
      bo: seq<MonHocCt>, kyDat: int)
    requires KhongLap(ct)
    ensures var r := LocUngVien(ct, c, daDangKy, chon, bo, kyDat);
            KhongLap(r) && forall m :: m in r <==> m in ct && LaUngVien(m, c, daDangKy, chon, bo, kyDat)
  {
    if ct != [] {
      assert forall x :: x in ct <==> x == ct[0] || x in ct[1..];
      LocUngVienLayTu(ct[1..], c, daDangKy, chon, bo, kyDat);
      var sau := LocUngVien(ct[1..], c, daDangKy, chon, bo, kyDat);
      assert forall i :: 0 <= i < |sau| ==> sau[i] in sau;
    }
  }
}
