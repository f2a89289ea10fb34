/** The database context: the tables as fields that the controllers update in place. */
module AppDbContext {
  import opened Wrappers
  import opened Collections
  import opened LichHoc
  import opened Entities
  import opened TichLuyDiem
  import opened CoSoDuLieu

  class AppDb {
    var lops: map<nat, LopHoc>
    var dangKys: map<nat, DangKyLopHoc>
    var diems: map<nat, DiemHocPhan>
    var tichLuy: map<nat, TichLuy>
    var lopKe: nat
    var dangKyKe: nat

    constructor (db: Db)
      ensures Gia() == db
    {
      lops, dangKys, diems, tichLuy := db.lops, db.dangKys, db.diems, db.tichLuy;
      lopKe, dangKyKe := db.lopKe, db.dangKyKe;
    }

    /** The tables as a value. */
    function Gia(): Db
      reads this
    {
      Db(lops, dangKys, diems, tichLuy, lopKe, dangKyKe)
    }
  }

  // ---------------------------------------------------------------- queries that list sessions

  /** The sessions of the classes, among `ids`, in which a student is registered in a term. */
  function LichDaDangKy(db: Db, sv: nat, hk: nat, tru: Option<nat>, ids: seq<nat>): seq<Buoi> {
    if ids == [] then []
    else
      (if ids[0] in db.lops && db.lops[ids[0]].maHocKy == hk && Some(ids[0]) != tru && CoDangKy(db, sv, ids[0])
       then db.lops[ids[0]].lichHocs else []) + LichDaDangKy(db, sv, hk, tru, ids[1..])
  }

  lemma {:induction false} LichDaDangKyNghia(db: Db, sv: nat, hk: nat, tru: Option<nat>, ids: seq<nat>, lich: seq<Buoi>)
    ensures TrungNhau(lich, LichDaDangKy(db, sv, hk, tru, ids)) <==>
            exists l :: l in ids && l in db.lops && db.lops[l].maHocKy == hk && Some(l) != tru && CoDangKy(db, sv, l) &&
                        TrungNhau(lich, db.lops[l].lichHocs)
  {
    if ids != [] {
      var x := ids[0];
      var dau := if x in db.lops && db.lops[x].maHocKy == hk && Some(x) != tru && CoDangKy(db, sv, x)
                 then db.lops[x].lichHocs else [];
      TrungNhauConcat(lich, dau, LichDaDangKy(db, sv, hk, tru, ids[1..]));
      LichDaDangKyNghia(db, sv, hk, tru, ids[1..], lich);
      assert forall l :: l in ids <==> l == x || l in ids[1..];
    }
  }

  lemma TrungLichQuaDanhSach(db: Db, sv: nat, hk: nat, tru: Option<nat>, lich: seq<Buoi>)
    ensures TrungNhau(lich, LichDaDangKy(db, sv, hk, tru, SortedKeys(db.lops.Keys))) <==>
            TrungLichSinhVien(db, sv, hk, lich, tru)
  {
    LichDaDangKyNghia(db, sv, hk, tru, SortedKeys(db.lops.Keys), lich);
    assert forall l :: l in db.lops <==> l in SortedKeys(db.lops.Keys);
  }
}
