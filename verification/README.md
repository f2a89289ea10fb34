# Verification of the university enrolment backend

A Dafny model of the enrolment system in `project B1` and proofs about it. The model follows the
program: what updates objects step by step (the solver's dictionary and counter, the controllers'
tables, the accumulation loops, the chunker, the stream reader) is a class or a loop proved equal to
a function, and the theorems are about that function. Entity and operation names are the program's
own, Vietnamese as there; grades are in hundredths, the four-point scale in tenths, dates are day
numbers counted from a Monday.

## The parts

- **Timetable solver.** `GoiYLich` holds the search as the service runs it; `XepLich` its value as a
  function of the arguments and the node counter, next to a reference search without a budget.
  `XepLichAnToan` (safety and accounting for any budget), `XepLichNganSach` (work, and what crossing
  the limit does), `XepLichToiUu` (what is optimal within the budget), `KyHieu` and `BienThe` (several
  different timetables), `BienTheSoMon` and `BienTheLyDo` (how many courses a variant places and what
  its reasons are worth), `TuChon` (filling in electives).
- **From request to suggestions.** `HocKyHienTai` is the term a request is about, `ChuongTrinh` the
  advice page, `GoiYDanhSach` the list building. `GoiYBang`, `GoiYLanLuot` and `GoiYCanXep` say what that takes
  from tables and request, and that nothing to place is lost; `GoiYAnToan`, `GoiYDeXuat` and `GoiYDangKy` lead to
  the theorem that joins solver and registrar: which of what the one proposes the other accepts.
  `GoiYKhongMuon` is about courses named as unwanted, `GoiYLyDo` about the list of unplaced courses shown
  with a suggestion, `GoiYTrung` about suggestions that come out alike.
- **Registrar, catalogue, grades.** `CoSoDuLieu` is the state of the tables, `DangKyHocPhan`,
  `LopHocTrongKy` and `NhapDiem` the steps on it, `HeThong` their runs in any order. `DangKyNghia` and
  `LopHocNghia` say in the fields of the tables when a step succeeds and what it leaves. `GhiDanh` is
  about enrolment, `TichLuyDiem`, `TichLuyBang` and `TichLuyLuu` about credits and GPA. The controllers in
  `DangKyApi`, `LopHocApi` and `DiemApi` update the tables of `AppDb` in place and are proved to
  perform those steps.
- **Risk model input.** `HocVuRisk` builds the training rows with running totals, `HocVuRiskKy` is the
  order of the terms, `HocVuRiskNghia` compares the totals with the cached rule, `HocVuRiskHang`
  carries that to the rows. `HocVuRiskDong` says of the whole set which attempt each row is about and what
  the row says of it.
- **Text chunks and answer stream.** `TextChunker` and `TextChunkerDoan`, and `ChatbotStream` with printer
  and reader. Blank lines delimit events as in section 9.2.6 of the WHATWG HTML Living Standard.
- **Concrete cases.** The `ViDu...` modules hold states and requests on which a property fails.
- **Underneath.** `LichHoc` is the overlap test, `Entities` the records, `Scoring` the preference score;
  `Collections`, `Text`, `Math` and `Wrappers` are what the model needs of the libraries.

## What the program does not keep

Each of these is a property that holds only under a condition, and the condition is proved exact.

- Moving to another class compares the courses of the two classes and not their terms. A successful
  move keeps enrolment exactly when `GhiDanh.MoveExact` says so; `ViDuGhiDanh.MoveCanBreak` is a case
  in which it does not.
- Updating a class looks at no enrolled student: `GhiDanh.UpdateExact`, `ViDuGhiDanh.UpdateCanBreak`.
- Past the node limit the reason "all classes clash" can be wrong, also in the timetable that is
  returned: `XepLichNganSach.ReasonExact`, `ViDuXepLich.WrongReason`. Within it the reasons of one run
  are right of the classes the run was given (`XepLichToiUu.ReasonsTrue`).
- The runs for the second to fifth suggestion are given lists with banned classes, and state their
  reasons over what is left. Of all classes on offer a reason there can be wrong, and an unplaced course
  can still fit: `BienTheLyDo.BannedRunReasons`, `GoiYLyDo.LaterSuggestionReasons`, with cases in
  `ViDuLyDo.LaterReasonWrong` and `ViDuBienThe.LaterReasonNoClass`. The first suggestion's reasons are
  right (`GoiYLyDo.FirstSuggestionReasons`).
- The fill comes after the list of unplaced courses and reads all classes on offer. So a suggestion can
  list a course it holds (`GoiYLyDo.UnplacedListExact`, `TuChon.FillTakesExact`), and two suggestions can
  be one timetable (`GoiYTrung.SuggestionsAlikeExact`); both happen in `ViDuLyDo.PutBackListed`.
- The answer stream prints its records under the names of their members, which begin with capitals; the
  page reads names that do not. So the tokens arrive, but of the sources and the proposed action the page
  can read nothing: `ChatbotStream.ClosingEventExact`, `ViDuChatbot.ClosingEventUnread`.
- A variant made by banning classes may place more courses than the first, or fewer
  (`ViDuBienThe.LaterVariantCanPlaceMore`, `ViDuBienThe.LaterVariantCanPlaceFewer`): within the limit
  it leaves out at most k courses exactly when that is possible without the banned classes
  (`BienTheSoMon.BannedRunCount`), and none exactly when a complete timetable without them exists
  (`BienTheSoMon.BannedRunComplete`).
- Removing a graded registration, by cancelling it, moving it or cancelling the class, leaves the
  cached credits and GPA as they were: `TichLuyLuu.CancelGradedExact`, `TichLuyLuu.MoveGradedExact`,
  `TichLuyLuu.CancelClassExact`, all three in `TichLuyLuu.StepCacheExact`; a stale GPA in
  `ViDuTichLuy.CancelCanLeaveStaleGpa`.
- The comment above the risk model's training set promises that a course counts once at its best
  grade. The code counts it once in every term in which it is passed; the model follows the code. When
  the numbers still agree is in `HocVuRiskNghia.RunningAgainstBatch` and `HocVuRiskHang.RowGpaIsBatch`;
  a case in which they do not is `ViDuHocVu.RowGpaCanDiffer`.
- A row is meant to carry the GPA of the terms before. Of two terms that start on one day the one that
  appears first counts as before: `HocVuRiskKy.TermOrderExact`, `HocVuRiskHang.PriorGpaUsesEarlierTerms`,
  `ViDuHocVu.SameDayRowsDiffer`.
- Registration counts the student's curriculum term from the start year of the term, because it does
  not load the academic year; the advice page counts from the start year of the academic year. The
  difference is in `CoSoDuLieu.KyTheoNam`, what follows from it in `ChuongTrinh.AdviceExact` and
  `GoiYDangKy.SuggestionsRegistrable`, cases in `ViDuKyHoc.SecondSemesterAccepted` and
  `ViDuKyHoc.EarlyTermRefused`.
- A course asked for by name is suggested although registration refuses it for its prerequisite or
  its term: `GoiYDangKy.SuggestionsRegistrable`, `ViDuGoiY.NamedCourseRefused`.
- A course named as unwanted can still be suggested, for one of two causes
  (`GoiYKhongMuon.UnwantedCourse`): another match was removed in its place
  (`ViDuKhongMuon.SecondMatchSuggested`), or the fill took it (`ViDuGoiY.UnwantedFilledIn`). Of a name
  that matches one course alone only the second can happen, and `GoiYKhongMuon.UnwantedExact` says for
  which courses.
- Suggestions are made for the term of the newest round under way, which need not allow registering:
  `HocKyHienTai.ResolvedTermExact`, `HocKyHienTai.SuggestedTermRefused`, `ViDuGoiY.NewestRoundNotOpen`.
- The overlap test may report sessions whose common dates do not contain their weekday:
  `LichHoc.OverlapExact`, `LichHoc.FalseAlarm`.
- Registration lets a student retake a failed required course ahead of its term that the advice page
  marks as closed: `ChuongTrinh.AdviceExact`, `ViDuGoiY.AdviceCanDiffer`.

## Assumptions about the environment

Each endpoint is one atomic step. The lecturer's or staff member's right to act, the clock, the fuzzy
name match, the reading of the request by the language model, the citation of sources and the case
mapping of room names are arbitrary parameters. Tables are read in key order where the program asks
for no order. A curriculum lists each course once, a course's credits do not change, and a term starts
on one date. What the answer stream prints as JSON is parsed back to the same value, property names
included, and has no raw newline and no outer whitespace.

## Model

| member | source | states |
|---|---|---|
| `GoiYDangKy.SuggestionsRegistrable` | project B1/backend/QuanLyTruongHoc.Infrastructure/Services/GoiYLichService.cs:400-558 | For a student with at most one class per course in the term: any new classes of any suggestion, registered one after another in any order while the round is open, all succeed exactly when none is of a course whose prerequisite is not passed, or that is required, never attempted and ahead of the term as registration counts it; if that term is not the lower of the two, only courses asked for by name are refused, so with nothing asked for by name all succeed |
| `GoiYDangKy.KiemTraTheoCt` | project B1/backend/QuanLyTruongHoc.Api/Controllers/DangKyHocPhanController.cs:194-220 | The registrar's verdict on the record of a suggested course, read off the advice page and registration's own curriculum term: refused for the prerequisite, refused for the term, or accepted, and never refused as passed well enough; a course open on the page has its prerequisite and is within the page's term |
| `ViDuGoiY.NamedCourseRefused` | project B1/backend/QuanLyTruongHoc.Infrastructure/Services/GoiYLichService.cs:474-484 | A concrete request for an elective without its prerequisite: it is suggested, and registering it is refused |
| `HocKyHienTai.ResolvedTermExact` | project B1/backend/QuanLyTruongHoc.Infrastructure/Services/GoiYLichService.cs:35-51 | While rounds are under way for the student the suggestions are for the term of the newest one, whatever it allows |
| `HocKyHienTai.SuggestedTermRefused` | project B1/backend/QuanLyTruongHoc.Infrastructure/Services/GoiYLichService.cs:35-51 | A class of that term is refused for the time exactly when none of the term's rounds under way allows registering |
| `HocKyHienTai.ResolvedTermOfLastRound` | project B1/backend/QuanLyTruongHoc.Infrastructure/Services/GoiYLichService.cs:41-48 | While no round is under way for the student the term is that of the round for the student that starts last |
| `HocKyHienTai.ResolvedTermWithoutRounds` | project B1/backend/QuanLyTruongHoc.Infrastructure/Services/GoiYLichService.cs:50-52 | While no round is for the student it is the term with a class that starts last, and without classes the term that starts last |
| `ViDuGoiY.NewestRoundNotOpen` | project B1/backend/QuanLyTruongHoc.Infrastructure/Services/GoiYLichService.cs:35-51 | A concrete case: registration is open in one term, the suggestions are for another, where every class is refused |
| `GoiYDeXuat.SuggestionsSound` | project B1/backend/QuanLyTruongHoc.Infrastructure/Services/GoiYLichService.cs:525-558 | Between one and five suggestions; each keeps the registered classes, its new classes overlap nothing in it, and they are classes with a free seat of curriculum courses that are open to the student or were asked for by name |
| `GoiYLyDo.FirstSuggestionReasons` | project B1/backend/QuanLyTruongHoc.Infrastructure/Services/GoiYLichService.cs:312-346 | The first suggestion, if its run ends within the limit: the list of unplaced courses is that of the timetable shown, every reason is true of all classes on offer, and no class of a listed course could be added |
| `GoiYLyDo.LaterSuggestionReasons` | project B1/backend/QuanLyTruongHoc.Infrastructure/Services/GoiYLichService.cs:386-395 | Of every later suggestion, if its run ends within the limit, the same holds exactly when the run places the course it bans classes of; or the fill does not put that course back, the ban leaves it a class, and no banned class of it fits the timetable shown |
| `GoiYLyDo.UnplacedListExact` | project B1/backend/QuanLyTruongHoc.Infrastructure/Services/GoiYLichService.cs:532-558 | For any budget a suggestion's list names the courses its timetable lacks exactly when no unplaced elective of the solver's list comes to its turn in the fill with a class that fits while fewer than asked for have been added |
| `ViDuLyDo.LaterReasonWrong` | project B1/backend/QuanLyTruongHoc.Infrastructure/Services/GoiYLichService.cs:342-346 | A concrete student whose second suggestion says that all classes of a course clash although one fits it |
| `ViDuLyDo.PutBackListed` | project B1/backend/QuanLyTruongHoc.Infrastructure/Services/GoiYLichService.cs:532-558 | The same student with one elective to be filled in: the second suggestion is the first again, holds the course and lists it as unplaced |
| `GoiYTrung.SuggestionsAlikeExact` | project B1/backend/QuanLyTruongHoc.Infrastructure/Services/GoiYLichService.cs:532-558 | Two suggestions from different results are one timetable exactly when each result is found again in the other suggestion and both hold as many courses; then electives were to be filled in, and the fill put back a course that one of the lists calls unplaced |
| `GoiYKhongMuon.UnwantedCourse` | project B1/backend/QuanLyTruongHoc.Infrastructure/Services/GoiYLichService.cs:487-541 | Why a suggestion can still hold a new course that matches an unwanted name: another match was removed in its place, or it is an open elective that was not in the list to place and the fill took it |
| `GoiYKhongMuon.UnwantedAvoided` | project B1/backend/QuanLyTruongHoc.Infrastructure/Services/GoiYLichService.cs:487-541 | A course that alone matches an unwanted name is avoided, whatever the search does, unless it is an elective open to the student, of the term if only the term is wanted, not asked for by name as well, while electives are to be filled in |
| `GoiYKhongMuon.UnwantedExact` | project B1/backend/QuanLyTruongHoc.Infrastructure/Services/GoiYLichService.cs:487-541 | That exception is exact: for such a course, and for no other that alone matches an unwanted name, some choice of offered classes, each such as creation stores, makes a suggestion take it |
| `ViDuKhongMuon.SecondMatchSuggested` | project B1/backend/QuanLyTruongHoc.Infrastructure/Services/GoiYLichService.cs:487-497 | A concrete request in which one unwanted name matches two required courses: one is removed and the other suggested |
| `ViDuGoiY.UnwantedFilledIn` | project B1/backend/QuanLyTruongHoc.Infrastructure/Services/GoiYLichService.cs:487-541 | A concrete request in which an elective named as unwanted is filled in |
| `GoiYDeXuat.SolverInputDistinct` | project B1/backend/QuanLyTruongHoc.Infrastructure/Services/GoiYLichService.cs:474-523 | The courses handed to the solver are distinct curriculum courses, none already registered, each open to the student or asked for by name, for every request |
| `GoiYCanXep.ListToPlaceExact` | project B1/backend/QuanLyTruongHoc.Infrastructure/Services/GoiYLichService.cs:422-500 | Which courses the solver gets: required ones that are open, of the curriculum term if only that is wanted, and those that a wanted name picks as its first match, if they have a free class and are not passed or may be improved; less those that the unwanted names take out one after another, each the first match still there, required courses standing before the named ones; less the registered ones |
| `GoiYCanXep.NothingToPlaceIsLost` | project B1/backend/QuanLyTruongHoc.Infrastructure/Services/GoiYLichService.cs:470-558 | Such a course that no unwanted name matches is in every suggestion, or every suggestion that lacks it lists its name as unplaced |
| `GoiYLanLuot.BoLanLuot` | project B1/backend/QuanLyTruongHoc.Infrastructure/Services/GoiYLichService.cs:487-497 | Removal by name: each name takes out the first match that is left, and what is left and what was taken out follow from that |
| `GoiYBang.OfferedExact` | project B1/backend/QuanLyTruongHoc.Infrastructure/Services/GoiYLichService.cs:429-440 | On offer under a course are exactly its classes of the term with fewer registrations than seats, in key order |
| `GoiYBang.FixedExact` | project B1/backend/QuanLyTruongHoc.Infrastructure/Services/GoiYLichService.cs:409-416 | Kept fixed are exactly the courses the student is registered in this term, each with a class the student is in |
| `GoiYBang.MentionedExact` | project B1/backend/QuanLyTruongHoc.Infrastructure/Services/GoiYLichService.cs:457-464 | The scan of the text adds exactly the electives mentioned that no unwanted name, no wish and no elective added before matches, after the wishes read, and changes nothing else |
| `GoiYBang.CandidatesExact` | project B1/backend/QuanLyTruongHoc.Infrastructure/Services/GoiYLichService.cs:537-543 | The electives to fill with: open, neither registered nor chosen nor taken out at the student's wish, of the curriculum term if only that is wanted, each once, most classes first |
| `GoiYDeXuat.ElectiveNoteTrue` | project B1/backend/QuanLyTruongHoc.Infrastructure/Services/GoiYLichService.cs:532-577 | What the elective note claims: nothing chosen is disturbed, at most the number asked for is added, and if fewer, no free class of any elective still eligible fits the final timetable |
| `GoiYAnToan.SolvingOrderPermutes` | project B1/backend/QuanLyTruongHoc.Infrastructure/Services/GoiYLichService.cs:507-523 | The solving order holds the courses to place, each once, in three tiers: for each named lecturer or class in turn the first course not yet taken that matches it, then the other courses asked for by name, then the rest with fewest classes first |
| `GoiYLich.GoiYLichService.GoiYAsync` | project B1/backend/QuanLyTruongHoc.Infrastructure/Services/GoiYLichService.cs:400-558 | A blank request or a missing term gives no suggestion, two classes of one course in the term make the request fail, and otherwise list building, search and fill return exactly the specified suggestions, one to five |
| `GoiYLich.GoiYLichService.QuetVanBan` | project B1/backend/QuanLyTruongHoc.Infrastructure/Services/GoiYLichService.cs:457-464 | The scan of the request text, which extends the list it also tests, adds exactly the specified wishes |
| `GoiYLich.GoiYLichService.LapMonCanXep` | project B1/backend/QuanLyTruongHoc.Infrastructure/Services/GoiYLichService.cs:470-500 | Adding courses by name, removing unwanted ones and dropping registered ones, in place, gives the specified two lists |
| `GoiYLich.GoiYLichService.LapThuTu` | project B1/backend/QuanLyTruongHoc.Infrastructure/Services/GoiYLichService.cs:507-523 | The tiers built in place are the specified solving order |
| `GoiYLich.GoiYLichService.DienTuChon` | project B1/backend/QuanLyTruongHoc.Infrastructure/Services/GoiYLichService.cs:532-558 | The greedy fill loop with its counter gives the specified timetable and count |
| `GoiYLich.GoiYLichService.GiaiXepLich` | project B1/backend/QuanLyTruongHoc.Infrastructure/Services/GoiYLichService.cs:287-349 | The recursive search over one shared dictionary and one counter returns the value of the pure budgeted search, leaves the counter as that says, makes as many calls as that says, and restores the dictionary |
| `GoiYLich.GoiYLichService.ThuCacLop` | project B1/backend/QuanLyTruongHoc.Infrastructure/Services/GoiYLichService.cs:321-340 | The loop over ranked classes with its break on the budget and its early exit ends as the pure loop does |
| `GoiYLich.GoiYLichService.ThuVaGiu` | project B1/backend/QuanLyTruongHoc.Infrastructure/Services/GoiYLichService.cs:328-339 | Trying one class keeps the better of its result and the best so far |
| `GoiYLich.GoiYLichService.ThuMotLop` | project B1/backend/QuanLyTruongHoc.Infrastructure/Services/GoiYLichService.cs:328-332 | Choosing, solving the rest and taking the choice back leaves the dictionary as it was |
| `GoiYLich.GoiYLichService.ChamDiemUngVien` | project B1/backend/QuanLyTruongHoc.Infrastructure/Services/GoiYLichService.cs:316-319 | Scoring and sorting the candidates gives the stable descending order of their scores |
| `Collections.StableDescendingSorts` | project B1/backend/QuanLyTruongHoc.Infrastructure/Services/GoiYLichService.cs:316-319 | The sort is a permutation, descends by score and keeps the offered order among equal scores |
| `Collections.StableOrderUnique` | project B1/backend/QuanLyTruongHoc.Infrastructure/Services/GoiYLichService.cs:316-319 | Descending order and kept order among equals determine the sorted list: there is no other |
| `XepLichAnToan.TimDung` | project B1/backend/QuanLyTruongHoc.Infrastructure/Services/GoiYLichService.cs:293-346 | For any budget: the result extends the fixed classes with offered classes without a new clash, the unplaced list is the missing courses in order, the total is the sum of the scores of the new classes |
| `XepLichAnToan.NoCellTakenTwice` | project B1/backend/QuanLyTruongHoc.Infrastructure/Services/GoiYLichService.cs:323-330 | For any budget, conflict-free fixed classes give a conflict-free timetable in which no date and period is used by two classes |
| `XepLichAnToan.CutOffNeverComplete` | project B1/backend/QuanLyTruongHoc.Infrastructure/Services/GoiYLichService.cs:296-304 | Nothing is reported unplaced exactly when every course got a class, so a cut-off branch never looks like success |
| `XepLichNganSach.WithinBudget` | project B1/backend/QuanLyTruongHoc.Infrastructure/Services/GoiYLichService.cs:296-348 | With the counter at exit within the limit, the search with budget and early exit returns what the reference search without a budget returns |
| `XepLichNganSach.WorkBound` | project B1/backend/QuanLyTruongHoc.Infrastructure/Services/GoiYLichService.cs:296-307 | From a reset counter: the counter ends at most at 200,001 and there are at most 1 + 200,001 * w calls, w being the longest class list (at least 1), calls past the limit included |
| `XepLichNganSach.TimDem` | project B1/backend/QuanLyTruongHoc.Infrastructure/Services/GoiYLichService.cs:287-349 | From any counter: it only grows, never passes the limit by more than one, and calls are bounded by the nodes counted |
| `XepLichNganSach.ReasonExact` | project B1/backend/QuanLyTruongHoc.Infrastructure/Services/GoiYLichService.cs:325-346 | A course with classes is reported as clashing exactly when all its classes clash with what was chosen before, or the counter stands at the limit on entry |
| `XepLichNganSach.NodesBounded` | project B1/backend/QuanLyTruongHoc.Infrastructure/Services/GoiYLichService.cs:296-307 | A bound on the counter computed from the numbers of classes alone: a problem for which it is at most 200,000 never reaches the limit |
| `ViDuXepLich.WrongReason` | project B1/backend/QuanLyTruongHoc.Infrastructure/Services/GoiYLichService.cs:325-346 | A concrete problem of four courses whose returned timetable reports a course as clashing although its class clashes with nothing in it |
| `XepLichToiUu.RestrictedOptimal` | project B1/backend/QuanLyTruongHoc.Infrastructure/Services/GoiYLichService.cs:316-348 | Within the budget the result leaves out the fewest courses among all assignments that leave a course out only when every class of it clashes with earlier choices; among complete ones it is first in the order of preference |
| `XepLichToiUu.FirstCompleteTimetable` | project B1/backend/QuanLyTruongHoc.Infrastructure/Services/GoiYLichService.cs:316-348 | Within the budget, if any complete timetable extends the fixed classes, the search returns a complete one that comes no later than any other in course order and ranked class order |
| `XepLichToiUu.NothingFits` | project B1/backend/QuanLyTruongHoc.Infrastructure/Services/GoiYLichService.cs:323-346 | Within the budget no class, of those the run was given, of an unplaced course could be added to the result |
| `XepLichToiUu.ReasonsTrue` | project B1/backend/QuanLyTruongHoc.Infrastructure/Services/GoiYLichService.cs:312-345 | Within the budget every stated reason is the true one of the classes the run was given, which in a later variant are those the ban left: none of them, or only clashing ones |
| `XepLichToiUu.ChoiceWithinBudget` | project B1/backend/QuanLyTruongHoc.Infrastructure/Services/GoiYLichService.cs:333-339 | Within the budget, which class a course with a compatible class gets: the one whose branch leaves out the fewest courses, then, among complete branches, the best ranked, among others the highest total and then the best ranked; that branch is the result |
| `Scoring.ScoreLop` | project B1/backend/QuanLyTruongHoc.Infrastructure/Services/GoiYLichService.cs:254-283 | The scoring loop computes the score whose worth wish by wish is in the rows below |
| `Scoring.NoWishes` | project B1/backend/QuanLyTruongHoc.Infrastructure/Services/GoiYLichService.cs:254-283 | Without wishes every class scores 0 |
| `Scoring.FirstPreferenceCounts` | project B1/backend/QuanLyTruongHoc.Infrastructure/Services/GoiYLichService.cs:259-264 | Of the named preferences only the first that matches the course counts: 100 for its lecturer if given and the class's first lecturer matches, 50 for its class name if given and matching |
| `Scoring.AvoidingOneLecturer` | project B1/backend/QuanLyTruongHoc.Infrastructure/Services/GoiYLichService.cs:266-268 | One more lecturer to avoid costs a class exactly 200 when it is meant for the class's first lecturer in this course and no earlier such wish was, and nothing otherwise |
| `Scoring.AvoidingOneWeekday` | project B1/backend/QuanLyTruongHoc.Infrastructure/Services/GoiYLichService.cs:276-276 | One more weekday to avoid costs 30 per session on it, and nothing if it was to be avoided already |
| `Scoring.HalfDayPreference` | project B1/backend/QuanLyTruongHoc.Infrastructure/Services/GoiYLichService.cs:272-274 | The preferred half day brings 3 per session that begins in it |
| `Scoring.AvoidingOnePeriod` | project B1/backend/QuanLyTruongHoc.Infrastructure/Services/GoiYLichService.cs:270-280 | One more avoided period costs a class exactly 30 per session that meets then |
| `XepLich.AvoidedRankedLater` | project B1/backend/QuanLyTruongHoc.Infrastructure/Services/GoiYLichService.cs:266-319 | Of two offered classes at the same times, one whose lecturer is to be avoided and one whose lecturer is not, the second is ranked first, whatever else is preferred |
| `KyHieu.SignatureInjective` | project B1/backend/QuanLyTruongHoc.Infrastructure/Services/GoiYLichService.cs:351-352 | Two timetables have equal signatures exactly when they give the same courses the same classes |
| `BienThe.VariantsSound` | project B1/backend/QuanLyTruongHoc.Infrastructure/Services/GoiYLichService.cs:357-398 | Asked for k >= 1: between 1 and k timetables, the first the unrestricted solution, pairwise different in classes, each keeping the fixed classes and valid for the unrestricted problem; none for k <= 0 |
| `BienThe.VariantIsNew` | project B1/backend/QuanLyTruongHoc.Infrastructure/Services/GoiYLichService.cs:386-395 | A run made for a course places it, if at all, in a class no earlier timetable used |
| `BienThe.VariantsExhaustive` | project B1/backend/QuanLyTruongHoc.Infrastructure/Services/GoiYLichService.cs:386-395 | When fewer timetables come back than asked for, every course with several classes was tried: none of the first few places it, or the run without the classes they give it leads to a timetable in the list |
| `BienTheLyDo.VariantsFromRuns` | project B1/backend/QuanLyTruongHoc.Infrastructure/Services/GoiYLichService.cs:365-395 | Every timetable after the first comes from a run for one course with classes on offer, in which exactly the classes are banned that the timetables before it give the course |
| `BienTheLyDo.BannedRunReasons` | project B1/backend/QuanLyTruongHoc.Infrastructure/Services/GoiYLichService.cs:312-346 | Such a run, within the limit, against all classes on offer: its reasons are those over all classes exactly when the ban does not use up a course's classes; they are true and nothing can be added exactly when the course is placed, or its classes are not used up and no banned one fits |
| `BienTheSoMon.BannedRunCount` | project B1/backend/QuanLyTruongHoc.Infrastructure/Services/GoiYLichService.cs:367-395 | A run with banned classes that ends within the limit leaves out at most k courses exactly when some admissible assignment without those classes does |
| `BienTheSoMon.BannedRunComplete` | project B1/backend/QuanLyTruongHoc.Infrastructure/Services/GoiYLichService.cs:367-395 | Such a run places every course exactly when some complete timetable without the banned classes exists |
| `ViDuBienThe.LaterVariantCanPlaceMore` | project B1/backend/QuanLyTruongHoc.Infrastructure/Services/GoiYLichService.cs:386-395 | A concrete problem whose third variant places three courses, the first two only two |
| `ViDuBienThe.LaterVariantCanPlaceFewer` | project B1/backend/QuanLyTruongHoc.Infrastructure/Services/GoiYLichService.cs:386-395 | A concrete problem whose first variant places both courses and whose second places one |
| `ViDuBienThe.LaterReasonNoClass` | project B1/backend/QuanLyTruongHoc.Infrastructure/Services/GoiYLichService.cs:312-314 | A concrete problem whose third variant says of a course with two classes on offer that no class has a free seat |
| `GoiYLich.GoiYLichService.TimNhieuLichHoc` | project B1/backend/QuanLyTruongHoc.Infrastructure/Services/GoiYLichService.cs:357-398 | The in-place list and signature set give the specified variants |
| `TuChon.FillSound` | project B1/backend/QuanLyTruongHoc.Infrastructure/Services/GoiYLichService.cs:545-557 | The fill keeps every class, adds only offered classes of listed electives and at most the number asked for, creates no clash, and stops short only when no class of a remaining elective fits |
| `TuChon.FillTakesExact` | project B1/backend/QuanLyTruongHoc.Infrastructure/Services/GoiYLichService.cs:545-557 | The fill takes an elective exactly when, its turn come, fewer than asked for have been added and a class of it fits |
| `TuChon.FillClassBest` | project B1/backend/QuanLyTruongHoc.Infrastructure/Services/GoiYLichService.cs:548-556 | The class it gets fits at its turn, and no other offered class that fits then scores more |
| `ChuongTrinh.AdviceExact` | project B1/backend/QuanLyTruongHoc.Infrastructure/Services/GoiYLichService.cs:77-112 | For a course with a class this term: the page closes it and registration accepts it exactly for an otherwise eligible required course that was failed and lies ahead of the page's term, or was never attempted and lies between the page's term and registration's; it opens it and registration refuses exactly for one never attempted that lies between the two the other way round |
| `GoiYBang.CourseRowExact` | project B1/backend/QuanLyTruongHoc.Infrastructure/Services/GoiYLichService.cs:77-119 | The row of a course in the fields of the tables: state and chance to improve from the registrations of the term and the recorded grades; open exactly when it has a class, is not registered, has no grade of 7.00 or more, its prerequisite has 4.00 or more, and, if required and of a later curriculum term, it was passed |
| `CoSoDuLieu.TermReached` | project B1/backend/QuanLyTruongHoc.Application/Common/DangKyRules.cs:29-41 | The curriculum term reached: 1 in a first semester of the year of entry or before, 2 in a second semester or supplementary term, and two more for every later year |
| `CoSoDuLieu.KyTheoNam` | project B1/backend/QuanLyTruongHoc.Application/Common/DangKyRules.cs:28-41 | How far apart the two terms are: twice the difference of the start years of the term and of its academic year, each at least the year of entry; registration's is not the lower one exactly when the academic year starts no later than the term does or than the student entered |
| `ViDuKyHoc.SecondSemesterAccepted` | project B1/backend/QuanLyTruongHoc.Api/Controllers/DangKyHocPhanController.cs:157-220 | A concrete second semester: the page puts a required course after the term reached and registration accepts it |
| `ViDuKyHoc.EarlyTermRefused` | project B1/backend/QuanLyTruongHoc.Api/Controllers/DangKyHocPhanController.cs:157-220 | A concrete term dated before its academic year: the page opens a required course and registration refuses it |
| `ViDuGoiY.AdviceCanDiffer` | project B1/backend/QuanLyTruongHoc.Infrastructure/Services/GoiYLichService.cs:98-112 | A concrete course the page marks as closed and every guard on the course lets through |
| `LichHoc.KiemTraTrungNhau` | project B1/backend/QuanLyTruongHoc.Application/Common/LichHoc.cs:21-30 | The nested loop with early return reports true exactly when some session of one list overlaps some of the other |
| `LichHoc.TrungNhauSymmetric` | project B1/backend/QuanLyTruongHoc.Application/Common/LichHoc.cs:10-30 | The overlap test is symmetric |
| `LichHoc.OverlapExact` | project B1/backend/QuanLyTruongHoc.Application/Common/LichHoc.cs:10-18 | Two sessions share a date and period exactly when the test reports them and their weekday occurs in the common date range |
| `LichHoc.SharedCellReported` | project B1/backend/QuanLyTruongHoc.Application/Common/LichHoc.cs:10-18 | Every shared date and period is reported, well formed or not |
| `LichHoc.FalseAlarm` | project B1/backend/QuanLyTruongHoc.Application/Common/LichHoc.cs:10-18 | Two sessions the test reports although they never meet |
| `DangKyApi.DangKyHocPhanController.DangKy` | project B1/backend/QuanLyTruongHoc.Api/Controllers/DangKyHocPhanController.cs:157-246 | Guards in order, then one inserted row: exactly the specified step on the tables |
| `DangKyApi.DangKyHocPhanController.HuyDangKy` | project B1/backend/QuanLyTruongHoc.Api/Controllers/DangKyHocPhanController.cs:249-274 | Removes the registration and its grade, or refuses, exactly as the specified step |
| `DangKyApi.DangKyHocPhanController.DoiLop` | project B1/backend/QuanLyTruongHoc.Api/Controllers/DangKyHocPhanController.cs:278-342 | Replaces the registration, or refuses, exactly as the specified step, the unique index included |
| `DangKyApi.DangKyHocPhanController.KiemTraDiem` | project B1/backend/QuanLyTruongHoc.Api/Controllers/DangKyHocPhanController.cs:194-220 | The guards on grades, prerequisite and curriculum term, the last with the term's own start year, give the specified outcome |
| `DangKyApi.DangKyHocPhanController.TrungLichDaDangKy` | project B1/backend/QuanLyTruongHoc.Api/Controllers/DangKyHocPhanController.cs:223-227 | Overlap with the joined sessions of all registered classes is overlap with one of them |
| `DangKyNghia.RegisterExact` | project B1/backend/QuanLyTruongHoc.Api/Controllers/DangKyHocPhanController.cs:157-238 | Registering succeeds exactly while some round of the term that is meant for the student is under way and allows it, no grade in the course is 7.00 or more, the prerequisite has 4.00 or more, a required course of a later curriculum term was attempted, a seat is free, and the class is of another course than the student's other classes of the term and overlaps none; then one registration is added and nothing else changes |
| `DangKyNghia.RegisterRefusalsTrue` | project B1/backend/QuanLyTruongHoc.Api/Controllers/DangKyHocPhanController.cs:157-227 | Every reason for refusing a registration is true of the tables |
| `DangKyNghia.CancelExact` | project B1/backend/QuanLyTruongHoc.Api/Controllers/DangKyHocPhanController.cs:249-274 | Cancelling succeeds exactly for the student's own registration while some round of the class's term, for the student's intake or else faculty or for all, is under way and allows registering or withdrawing; then exactly that registration and its grade are gone, otherwise nothing changes; with which refusal in which case |
| `DangKyNghia.MoveSucceedsExact` | project B1/backend/QuanLyTruongHoc.Api/Controllers/DangKyHocPhanController.cs:278-334 | A move succeeds exactly for the student's own registration, to a class of the same course the student is not in, while a round of the old class's term allows registering, a seat is free, and nothing else the student has in the old class's term overlaps it |
| `ViDuGhiDanh.WithdrawalOnlyRound` | project B1/backend/QuanLyTruongHoc.Api/Controllers/DangKyHocPhanController.cs:261-266 | A concrete round that allows withdrawing only: a registration of its term is cancelled, one of another term is not, none can be made |
| `GhiDanh.AddExact` | project B1/backend/QuanLyTruongHoc.Api/Controllers/DangKyHocPhanController.cs:178-238 | A registration can be added without breaking enrolment exactly when the student has no class of the course this term, none that overlaps, and a seat is free |
| `GhiDanh.MoveExact` | project B1/backend/QuanLyTruongHoc.Api/Controllers/DangKyHocPhanController.cs:298-334 | A successful move keeps enrolment exactly when the new class is of the same term, or the new term has no class of the course and none that overlaps |
| `GhiDanh.UpdateExact` | project B1/backend/QuanLyTruongHoc.Api/Controllers/LopHocTrongKyController.cs:319-346 | A successful class update keeps enrolment exactly when the enrolled students still fit and the new sessions miss their other classes of the term |
| `GhiDanh.StepExact` | project B1/backend/QuanLyTruongHoc.Api/Controllers/DangKyHocPhanController.cs:156-342 | Of all steps only those two can break enrolment, and exactly in those cases |
| `GhiDanh.EnrolmentSafe` | project B1/backend/QuanLyTruongHoc.Api/Controllers/DangKyHocPhanController.cs:156-342 | Over every run whose moves and updates are safe: one class per course and term, no overlapping classes in a term, no class over capacity |
| `GhiDanh.MoveConservesSeats` | project B1/backend/QuanLyTruongHoc.Api/Controllers/DangKyHocPhanController.cs:322-334 | A move takes one seat from the old class and one in the new, changes no other class and keeps the number of the student's registrations |
| `GhiDanh.MoveTouchesOnlyItself` | project B1/backend/QuanLyTruongHoc.Api/Controllers/DangKyHocPhanController.cs:322-334 | A move replaces one registration and drops its grade; every other registration, grade, class and cache stays, and the student no longer holds the old class |
| `GhiDanh.MoveLeavesOthersAlone` | project B1/backend/QuanLyTruongHoc.Api/Controllers/DangKyHocPhanController.cs:322-334 | No other student's classes or best grades change |
| `GhiDanh.MoveBackExact` | project B1/backend/QuanLyTruongHoc.Api/Controllers/DangKyHocPhanController.cs:278-334 | In an enrolment in order the reverse move succeeds exactly when the classes are of one term, or the new class's term is open and none of the student's classes there overlaps the old one |
| `GhiDanh.MoveBackRestores` | project B1/backend/QuanLyTruongHoc.Api/Controllers/DangKyHocPhanController.cs:278-334 | When it succeeds the tables are as before but for the registration's key and its grade, which stays lost |
| `GhiDanh.CancelUndoesRegister` | project B1/backend/QuanLyTruongHoc.Api/Controllers/DangKyHocPhanController.cs:230-271 | Cancelling right after registering succeeds and restores every table |
| `ViDuGhiDanh.MoveCanBreak` | project B1/backend/QuanLyTruongHoc.Api/Controllers/DangKyHocPhanController.cs:298-320 | A concrete correct state and a successful move after which the student has two classes of one course in a term |
| `ViDuGhiDanh.UpdateCanBreak` | project B1/backend/QuanLyTruongHoc.Api/Controllers/LopHocTrongKyController.cs:275-346 | A concrete correct state and a successful update after which two classes of one student overlap |
| `HeThong.StepKeepsIntegrity` | project B1/backend/QuanLyTruongHoc.Infrastructure/Persistence/AppDbContext.cs:190-222 | Every step keeps primary keys, foreign keys, those of lecturers included, and the unique index on student and class |
| `LopHocTrongKy.ValidateLichHocs` | project B1/backend/QuanLyTruongHoc.Api/Controllers/LopHocTrongKyController.cs:108-141 | The validation loops return the error of the first bad session, or of the first clash, or none |
| `LopHocTrongKy.ScheduleCheckExact` | project B1/backend/QuanLyTruongHoc.Api/Controllers/LopHocTrongKyController.cs:108-141 | No error exactly when there is a session, each is within one half day on legal days, and no two overlap |
| `LopHocApi.LopHocTrongKyController.ValidatePhongHocKhongTrung` | project B1/backend/QuanLyTruongHoc.Api/Controllers/LopHocTrongKyController.cs:167-190 | Filtered lists and nested loops report a room exactly when some class of the term uses it, trimmed and ignoring case, at an overlapping time |
| `LopHocApi.LopHocTrongKyController.ValidateGiangVienKhongTrung` | project B1/backend/QuanLyTruongHoc.Api/Controllers/LopHocTrongKyController.cs:143-164 | Reported exactly when another class of the lecturer in the term overlaps |
| `LopHocApi.LopHocTrongKyController.Create` | project B1/backend/QuanLyTruongHoc.Api/Controllers/LopHocTrongKyController.cs:193-272 | Checks in order, then the class, its sessions and its lecturer: exactly the specified step |
| `LopHocApi.LopHocTrongKyController.Update` | project B1/backend/QuanLyTruongHoc.Api/Controllers/LopHocTrongKyController.cs:275-349 | Checks in order, then fields, sessions and lecturers replaced: exactly the specified step |
| `LopHocApi.LopHocTrongKyController.Delete` | project B1/backend/QuanLyTruongHoc.Api/Controllers/LopHocTrongKyController.cs:352-369 | Removes a class without students, exactly as the specified step |
| `LopHocApi.LopHocTrongKyController.HuyLop` | project B1/backend/QuanLyTruongHoc.Api/Controllers/LopHocTrongKyController.cs:373-397 | Removes the class with its registrations and their grades, exactly as the specified step |
| `LopHocNghia.CreateStores` | project B1/backend/QuanLyTruongHoc.Api/Controllers/LopHocTrongKyController.cs:244-271 | A successful creation adds one row under a new key, of the requested course, term, kind and capacity, with the trimmed name, exactly the requested lecturer, and the requested sessions in order with their rooms trimmed; everything else is as before, and after a refusal everything is |
| `LopHocNghia.UpdateStores` | project B1/backend/QuanLyTruongHoc.Api/Controllers/LopHocTrongKyController.cs:319-348 | A successful update leaves key, course and term of the row and gives it the rest as requested; everything else is as before |
| `LopHocNghia.CreateExact` | project B1/backend/QuanLyTruongHoc.Api/Controllers/LopHocTrongKyController.cs:193-242 | Creation succeeds exactly for a named class of a known kind with seats and a legal schedule, by someone entitled, for a known course, term and lecturer, that could stand beside every class of the catalogue |
| `LopHocNghia.UpdateSucceedsExact` | project B1/backend/QuanLyTruongHoc.Api/Controllers/LopHocTrongKyController.cs:275-317 | So does an update, beside every other class |
| `LopHocNghia.ScheduleErrorTrue` | project B1/backend/QuanLyTruongHoc.Api/Controllers/LopHocTrongKyController.cs:108-141 | The error reported for a schedule is true: no session, the fault of the first faulty one, or, with none faulty, an overlap of two |
| `LopHocNghia.CreateRefusalsTrue` | project B1/backend/QuanLyTruongHoc.Api/Controllers/LopHocTrongKyController.cs:193-242 | Every reason for refusing a new class is true of the request and the catalogue |
| `LopHocNghia.LecturerKeptBusy` | project B1/backend/QuanLyTruongHoc.Api/Controllers/LopHocTrongKyController.cs:143-236 | After a class is created with a lecturer, creating another one of the lecturer in the term with an overlapping session is refused for the lecturer, once the earlier checks are passed |
| `LopHocNghia.DeleteExact` | project B1/backend/QuanLyTruongHoc.Api/Controllers/LopHocTrongKyController.cs:352-369 | Deleting succeeds exactly for a class without registrations and removes its row alone |
| `LopHocNghia.CancelClassRemoves` | project B1/backend/QuanLyTruongHoc.Api/Controllers/LopHocTrongKyController.cs:373-397 | Cancelling a class removes its row, exactly its registrations, and exactly their grades |
| `LopHocTrongKy.CreateKeepsCatalogue` | project B1/backend/QuanLyTruongHoc.Api/Controllers/LopHocTrongKyController.cs:193-272 | Creation keeps rooms, lecturers, names and each schedule free of clashes |
| `LopHocTrongKy.UpdateKeepsCatalogue` | project B1/backend/QuanLyTruongHoc.Api/Controllers/LopHocTrongKyController.cs:275-349 | So does an update |
| `HeThong.CatalogueSafe` | project B1/backend/QuanLyTruongHoc.Api/Controllers/LopHocTrongKyController.cs:193-397 | Over every run of requests of any kind the catalogue stays free of clashes |
| `LopHocTrongKy.RoomsAndLecturersFree` | project B1/backend/QuanLyTruongHoc.Api/Controllers/LopHocTrongKyController.cs:143-190 | What that means: two distinct sessions of a term never share a room at overlapping times, and no lecturer holds two overlapping classes |
| `DiemApi.DiemHocPhanController.NhapDiem` | project B1/backend/QuanLyTruongHoc.Api/Controllers/DiemHocPhanController.cs:74-107 | Range checks, the row inserted or overwritten, the grade computed, the cache refreshed: exactly the specified step |
| `NhapDiem.DiemZ` | project B1/backend/QuanLyTruongHoc.Api/Controllers/DiemHocPhanController.cs:97-99 | The course grade in hundredths is at most 10.00 and within half a hundredth of the mean of the two parts |
| `NhapDiem.GradeStored` | project B1/backend/QuanLyTruongHoc.Api/Controllers/DiemHocPhanController.cs:80-101 | Entering grades succeeds exactly for parts between 0 and 10 in a class one teaches; the row then holds each part in its own field and, if both are given, their mean to the nearest hundredth, a tie to the even one; no other row changes |
| `TichLuyDiem.CapNhatTichLuy` | project B1/backend/QuanLyTruongHoc.Api/Controllers/DiemHocPhanController.cs:117-132 | The accumulation loop computes the specified credits and GPA |
| `TichLuyDiem.CountsEachCourseOnce` | project B1/backend/QuanLyTruongHoc.Api/Controllers/DiemHocPhanController.cs:118-132 | Credits are the sum over passed courses, each once at its best grade, and GPA the rounded weighted mean, 0 without credits |
| `TichLuyBang.TotalsInTables` | project B1/backend/QuanLyTruongHoc.Api/Controllers/DiemHocPhanController.cs:110-132 | In the fields of the tables: credits are those of the courses in which some grade is 4.00 or more, each once, and GPA the mean of their best grades on the four-point scale weighted by credits |
| `TichLuyBang.GradingCachesTotals` | project B1/backend/QuanLyTruongHoc.Api/Controllers/DiemHocPhanController.cs:103-140 | After a grade is entered the student's cached values are these |
| `TichLuyBang.DiemCaoNghia` | project B1/backend/QuanLyTruongHoc.Api/Controllers/DiemHocPhanController.cs:118-122 | The best grade is at least t exactly when some recorded grade is |
| `TichLuyBang.ScaleSteps` | project B1/backend/QuanLyTruongHoc.Application/Common/DiemQuyDoi.cs:7-18 | The four-point scale: 1.0 from grade 4.00 on and half a point more from each of six further grades on |
| `TichLuyDiem.OrderIrrelevant` | project B1/backend/QuanLyTruongHoc.Api/Controllers/DiemHocPhanController.cs:118-132 | Row order and repeated rows make no difference |
| `TichLuyDiem.GpaRange` | project B1/backend/QuanLyTruongHoc.Api/Controllers/DiemHocPhanController.cs:118-132 | GPA is 0 without credits, otherwise in [1.00, 4.00] and within 0.005 of the exact mean |
| `TichLuyDiem.AttemptKeepsCredits` | project B1/backend/QuanLyTruongHoc.Api/Controllers/DiemHocPhanController.cs:118-125 | One more attempt never lowers the credits |
| `TichLuyDiem.RetakeKeepsGpa` | project B1/backend/QuanLyTruongHoc.Application/Common/DiemQuyDoi.cs:7-18 | One more attempt of a passed course never lowers the GPA and leaves the credits |
| `TichLuyDiem.LamTronNghia` | project B1/backend/QuanLyTruongHoc.Api/Controllers/DiemHocPhanController.cs:132-132 | Rounding is to the nearest hundredth, ties to even |
| `TichLuyLuu.GradingRefreshesCache` | project B1/backend/QuanLyTruongHoc.Api/Controllers/DiemHocPhanController.cs:103-140 | Entering a grade makes that student's cache right and keeps everyone else's |
| `TichLuyLuu.CacheSound` | project B1/backend/QuanLyTruongHoc.Api/Controllers/DiemHocPhanController.cs:89-140 | Over every run whose steps remove no graded registration that credits or GPA depend on, cached credits and GPA are those recomputed from the current rows |
| `TichLuyLuu.StepCacheExact` | project B1/backend/QuanLyTruongHoc.Api/Controllers/DiemHocPhanController.cs:89-140 | From a correct cache a step of any kind leads to a correct cache exactly when it removes no graded registration that credits or GPA depend on |
| `TichLuyLuu.CancelGradedExact` | project B1/backend/QuanLyTruongHoc.Api/Controllers/DangKyHocPhanController.cs:268-271 | From correct caches, cancelling a graded registration leaves credits and GPA correct exactly when the credits do not change (no pass, another pass, or no credits) and the mean with the best other attempt in its place rounds to the same GPA |
| `TichLuyLuu.MoveGradedExact` | project B1/backend/QuanLyTruongHoc.Api/Controllers/DangKyHocPhanController.cs:322-334 | The same for a move to another class, which drops the grade |
| `TichLuyLuu.CancelClassExact` | project B1/backend/QuanLyTruongHoc.Api/Controllers/LopHocTrongKyController.cs:387-394 | The same for cancelling a class: it must hold of every graded registration in it |
| `ViDuTichLuy.CancelCanLeaveStaleGpa` | project B1/backend/QuanLyTruongHoc.Api/Controllers/DangKyHocPhanController.cs:268-271 | A concrete correct state in which cancelling the better of two passes leaves GPA 4.00 in the cache against 1.50 recomputed |
| `HocVuRiskDong.XayDungTapHuanLuyen` | project B1/backend/QuanLyTruongHoc.Infrastructure/Services/HocVuRiskService.cs:246-298 | The loops with running credits, points and attempt counts give the rows of all students; given that a term has one starting date, each row is about one attempt and says of it what the next row lists |
| `HocVuRiskDong.RowsExact` | project B1/backend/QuanLyTruongHoc.Infrastructure/Services/HocVuRiskService.cs:246-298 | Rows and attempts correspond one to one, students in the order of their first attempts, their terms by date, attempts of a term as listed; each row has the credits and kind of the attempt, fails exactly below 4.00, counts one more than the student's attempts at the course in earlier terms and earlier in this one, and carries the share of passes among all attempts at the course and the credits of the student's term |
| `HocVuRisk.DongCuaSinhVien` | project B1/backend/QuanLyTruongHoc.Infrastructure/Services/HocVuRiskService.cs:260-294 | One student's rows, term by term, with the running totals of the terms before |
| `HocVuRiskNghia.RunningTotals` | project B1/backend/QuanLyTruongHoc.Infrastructure/Services/HocVuRiskService.cs:286-292 | After any number of terms running credits are the sum over courses of credits times the terms in which the course was passed, and points likewise |
| `HocVuRiskNghia.RunningAgainstBatch` | project B1/backend/QuanLyTruongHoc.Infrastructure/Services/HocVuRiskService.cs:286-292 | Running credits and points are never below those of the cached rule for the same rows, and each agrees exactly when every course with credits was passed in at most one of the terms |
| `HocVuRiskNghia.RunningSplit` | project B1/backend/QuanLyTruongHoc.Infrastructure/Services/HocVuRiskService.cs:286-292 | Running credits are those of the cached rule plus, per course, credits for every pass beyond the first; points likewise, beyond the best pass |
| `HocVuRiskHang.RowGpaIsBatch` | project B1/backend/QuanLyTruongHoc.Infrastructure/Services/HocVuRiskService.cs:267-277 | The prior GPA of a row is the unrounded mean the cached rule takes over the terms before exactly when no course with credits was passed again in them, or the mean over the repeated passes is the same, taken as each course's credits for every pass beyond the first and its points beyond the best pass |
| `HocVuRiskHang.RowGpaWithoutRepeats` | project B1/backend/QuanLyTruongHoc.Infrastructure/Services/HocVuRiskService.cs:267-277 | So it is while every course with credits was passed in at most one earlier term |
| `ViDuHocVu.RowGpaCanDiffer` | project B1/backend/QuanLyTruongHoc.Infrastructure/Services/HocVuRiskService.cs:246-277 | A concrete history whose third row has prior GPA 2.5 where the cached rule gives 3.50, against the comment that a course counts at its best grade only |
| `HocVuRiskHang.PriorGpaUsesEarlierTerms` | project B1/backend/QuanLyTruongHoc.Infrastructure/Services/HocVuRiskService.cs:260-294 | Two histories that agree on the attempts in terms before one of theirs, those that start earlier and those that start on the same day but appear first, give the rows of the two terms one prior GPA, whatever they hold later |
| `HocVuRiskHang.NoOtherTermThatDay` | project B1/backend/QuanLyTruongHoc.Infrastructure/Services/HocVuRiskService.cs:260-294 | While no other term starts on the day these are the attempts in terms that start earlier |
| `ViDuHocVu.SameDayRowsDiffer` | project B1/backend/QuanLyTruongHoc.Infrastructure/Services/HocVuRiskService.cs:260-294 | Two terms that start on one day: the row of the second carries the pass of the first as prior GPA 1.5, the row of the first 0 |
| `HocVuRiskKy.TermsInOrder` | project B1/backend/QuanLyTruongHoc.Infrastructure/Services/HocVuRiskService.cs:262-262 | The terms of a student come in the order of their starting dates |
| `HocVuRiskKy.TermOrderExact` | project B1/backend/QuanLyTruongHoc.Infrastructure/Services/HocVuRiskService.cs:262-262 | A term comes before another exactly when it starts earlier, or on the same day and appears first |
| `TextChunker.ChuanHoaKhoangTrang` | project B1/backend/QuanLyTruongHoc.Application/Common/TextChunker.cs:40-66 | The builder loop with its flag computes the specified text |
| `TextChunker.NormaliserSound` | project B1/backend/QuanLyTruongHoc.Application/Common/TextChunker.cs:40-66 | Non-whitespace characters are kept in order, no outer whitespace is left, only a newline may follow whitespace, and normalising again changes nothing |
| `TextChunker.Chunk` | project B1/backend/QuanLyTruongHoc.Application/Common/TextChunker.cs:10-38 | The loops give the specified chunks of all pages |
| `TextChunker.WindowsCover` | project B1/backend/QuanLyTruongHoc.Application/Common/TextChunker.cs:18-35 | For any positive chunk size and any overlap the windows cover the text without gaps, none longer than the chunk size |
| `TextChunker.DefaultWindows` | project B1/backend/QuanLyTruongHoc.Application/Common/TextChunker.cs:10-35 | At the defaults consecutive windows share exactly 150 characters, dropping the shared ones rebuilds the text, and a text of n > 900 takes at most 1 + ceil((n - 900) / 551) windows |
| `TextChunkerDoan.ChunksExact` | project B1/backend/QuanLyTruongHoc.Application/Common/TextChunker.cs:10-38 | The chunks of a document are those of exactly the windows with more than 20 characters left after trimming, page by page and window by window, each under its page number |
| `TextChunker.NgatCuoiNghia` | project B1/backend/QuanLyTruongHoc.Application/Common/TextChunker.cs:25-26 | The chosen break is the last one in the searched part |
| `TextChunker.WindowEnd` | project B1/backend/QuanLyTruongHoc.Application/Common/TextChunker.cs:21-27 | A window that does not reach the end of the text ends with the last break among its last 200 characters that lies past the middle of the chunk size, and without one has the full chunk size |
| `TextChunker.EveryWindowEnds` | project B1/backend/QuanLyTruongHoc.Application/Common/TextChunker.cs:18-35 | Every window ends so, and the next begins overlap characters before its end, but at least one after its start |
| `ChatbotStream.StreamServer.HoiStream` | project B1/backend/QuanLyTruongHoc.Api/Controllers/ChatbotController.cs:301-316 | Writes one event per token in order and then the closing event, which cites the whole answer |
| `ChatbotStream.StreamClient.NhanTatCa` | project B1/frontend/src/services/chatbotService.ts:75-106 | The buffer loop over the pieces ends in the specified state |
| `ChatbotStream.PiecesDoNotMatter` | project B1/frontend/src/services/chatbotService.ts:79-104 | However the stream is cut into pieces, the loop does what it would do on the whole text at once |
| `ChatbotStream.ClientInvertsServer` | project B1/backend/QuanLyTruongHoc.Api/Controllers/ChatbotController.cs:312-316 | If the printed values are parsed back, splitting and parsing what was printed gives them in order and leaves nothing in the buffer |
| `ChatbotStream.StreamRoundTrip` | project B1/frontend/src/services/chatbotService.ts:73-106 | For every list of tokens and every cutting of the stream the page gets exactly the non-empty tokens in order, then the sources and the proposed action as the server prints its records |
| `ChatbotStream.ClosingEventExact` | project B1/frontend/src/services/chatbotService.ts:3-24 | The page finds none of the properties it reads of a source or an action; it gets the server's sources and action exactly when there are none, all sources share one missing file name, and an action names no class |
| `ViDuChatbot.ClosingEventUnread` | project B1/frontend/src/components/ChatbotWidget.tsx:293-299 | A concrete answer with two sources and an action: one source line without a name, and the class to register undefined |

## Left out

- XepLichToiUu.RestrictedOptimal: says nothing of the total score over all timetables, because the search stops at the first complete branch of a course and does not maximise it.
- GoiYLich.GoiYLichService.GoiYAsync: display order and notes other than the elective note are not modelled; rounds are read in table order and terms in key order where the program asks for no order.
- HocVuRiskDong.XayDungTapHuanLuyen: numbers are exact reals instead of 32-bit floats, and GPA before a term is not rounded to the digits of the decimal type.
- TextChunker.Chunk: a character is one UTF-16 unit; Dafny's characters are Unicode scalar values, so surrogate units are represented by characters above U+FFFF; neither they (`Text.NgoaiDonVi`) nor those are whitespace or a break. Chunk size and overlap are not negative.
- ChatbotStream.StreamClient.NhanTatCa: text that is not JSON, and an event that is null, make the page throw; here the parser returns some value for every text. Numbers in JSON are 32-bit integers.
- LopHocApi.LopHocTrongKyController.ValidatePhongHocKhongTrung: one notion of whitespace stands for both the database filter and the program's.
- AppDbContext: relations are maps and sets from keys to values; tracking of entities, and the rounding of stored part grades to two decimals, are not modelled.
- Requests with negative keys: keys are natural numbers; such a request would only find nothing.
- Races between concurrent requests: each step checks and saves at once.
- Language model calls, prompts, reading the constraints from JSON, accent folding and name matching: parameters, as above.
- Training and evaluation of the risk model, `TinhGpaTheoKy` (the cached rule restricted to a term), embeddings and retrieval scores: library behaviour or repetitions of a rule already proved.
- Other controllers, role scoping, authentication, document upload, web search, React components: single guards that would add only easy members.
- `wiii-main`: start-up wiring, benchmarks and reports around modules that are not part of this model.
