/**
 * The three tables (Player, Course, Score) and the outcome of each insert
 * and delete under the declared constraints: NOT NULL columns, the unique
 * course name, the column defaults, and the Score foreign keys with
 * ON DELETE CASCADE (foreign-key enforcement is always on).
 *
 * A nullable input is an `Option`: `None` is SQL NULL, or, for a column
 * with a default, a value left unset (the default then applies).
 *
 * Every integer column and key is bound through the SQLite driver, which
 * only accepts signed 64-bit integers; any other value makes the statement
 * raise before a constraint is checked (`IntegerOverflow`).
 */
module Models {
  import opened Wrappers

  datatype Player = Player(name: string)
  datatype Course = Course(name: string, numHoles: int, par: int)
  datatype Score = Score(throws: int, playerId: int, courseId: int)

  /** The rows of each table, by primary key. */
  datatype Tables = Tables(players: map<int, Player>, courses: map<int, Course>, scores: map<int, Score>)

  /** The columns of a new row, each possibly NULL or unset. */
  datatype NewCourse = NewCourse(name: Option<string>, numHoles: Option<int>, par: Option<int>)
  datatype NewScore = NewScore(throws: Option<int>, playerId: Option<int>, courseId: Option<int>)

  datatype DbError =
    | NotNullViolation(column: string)
    | UniqueViolation(column: string)
    | ForeignKeyViolation(column: string)
    | PrimaryKeyViolation
    | IntegerOverflow

  const MinInt64 := -0x8000_0000_0000_0000
  const MaxInt64 := 0x7fff_ffff_ffff_ffff

  /** The driver can bind `v` as an SQLite INTEGER. */
  predicate Fits(v: int)
  {
    MinInt64 <= v <= MaxInt64
  }

  /** NULL, unset, or an integer the driver can bind. */
  predicate FitsOrNull(v: Option<int>)
  {
    v.None? || Fits(v.value)
  }

  /** The value given, or the column default when it is left unset. */
  function OrDefault(v: Option<int>, default: int): int
  {
    if v.Some? then v.value else default
  }

  const DefaultNumHoles := 18
  const DefaultPar := 54

  function NoRows(): Tables
  {
    Tables(map[], map[], map[])
  }

  /** Every score names a live player and a live course. */
  predicate ScoresReferenceLiveRows(t: Tables)
  {
    forall sid :: sid in t.scores ==>
      t.scores[sid].playerId in t.players && t.scores[sid].courseId in t.courses
  }

  /** No two courses share a name. */
  predicate CourseNamesUnique(t: Tables)
  {
    forall a, b :: a in t.courses && b in t.courses && a != b ==> t.courses[a].name != t.courses[b].name
  }

  /** Every stored key and integer column is a signed 64-bit integer. */
  predicate StoredIntegersFit(t: Tables)
  {
    && (forall pid :: pid in t.players ==> Fits(pid))
    && (forall cid :: cid in t.courses ==> Fits(cid) && Fits(t.courses[cid].numHoles) && Fits(t.courses[cid].par))
    && (forall sid :: sid in t.scores ==> Fits(sid) && Fits(t.scores[sid].throws))
  }

  predicate Consistent(t: Tables)
  {
    ScoresReferenceLiveRows(t) && CourseNamesUnique(t) && StoredIntegersFit(t)
  }

  predicate NameTaken(t: Tables, name: string)
  {
    exists cid :: cid in t.courses && t.courses[cid].name == name
  }

  /** `m'` is `m` with one more entry, `k` mapped to `v`, and nothing else changed. */
  ghost predicate AddsEntry<V>(m': map<int, V>, m: map<int, V>, k: int, v: V)
  {
    && m'.Keys == m.Keys + {k}
    && m'[k] == v
    && forall j :: j in m ==> m'[j] == m[j]
  }

  /** `m'` keeps exactly the entries of `m` whose keys are in `keep`. */
  ghost predicate KeepsEntries<V>(m': map<int, V>, m: map<int, V>, keep: set<int>)
  {
    && m'.Keys == m.Keys * keep
    && forall j :: j in m' ==> m'[j] == m[j]
  }

  function InsertPlayer(t: Tables, id: int, name: Option<string>): (r: Result<Tables, DbError>)
    ensures r.Success? <==> Fits(id) && name.Some? && id !in t.players
    ensures !Fits(id) ==> r == Failure(IntegerOverflow)
    ensures Fits(id) && name.None? ==> r == Failure(NotNullViolation("name"))
    ensures Fits(id) && name.Some? && id in t.players ==> r == Failure(PrimaryKeyViolation)
    ensures r.Success? ==> AddsEntry(r.value.players, t.players, id, Player(name.value))
    ensures r.Success? ==> r.value.courses == t.courses && r.value.scores == t.scores
  {
    if !Fits(id) then Failure(IntegerOverflow)
    else if name.None? then Failure(NotNullViolation("name"))
    else if id in t.players then Failure(PrimaryKeyViolation)
    else Success(t.(players := t.players[id := Player(name.value)]))
  }

  /** The driver can bind every integer of a new course. */
  predicate CourseFits(id: int, c: NewCourse)
  {
    Fits(id) && FitsOrNull(c.numHoles) && FitsOrNull(c.par)
  }

  function InsertCourse(t: Tables, id: int, c: NewCourse): (r: Result<Tables, DbError>)
    ensures r.Success? <==> CourseFits(id, c) && c.name.Some? && id !in t.courses && !NameTaken(t, c.name.value)
    ensures !CourseFits(id, c) ==> r == Failure(IntegerOverflow)
    ensures CourseFits(id, c) && c.name.None? ==> r == Failure(NotNullViolation("name"))
    ensures CourseFits(id, c) && c.name.Some? && id in t.courses ==> r == Failure(PrimaryKeyViolation)
    ensures CourseFits(id, c) && c.name.Some? && id !in t.courses && NameTaken(t, c.name.value) ==>
              r == Failure(UniqueViolation("name"))
    ensures r.Success? ==>
      AddsEntry(r.value.courses, t.courses, id, Course(c.name.value, OrDefault(c.numHoles, 18), OrDefault(c.par, 54)))
    ensures r.Success? ==> r.value.players == t.players && r.value.scores == t.scores
  {
    if !CourseFits(id, c) then Failure(IntegerOverflow)
    else if c.name.None? then Failure(NotNullViolation("name"))
    else if id in t.courses then Failure(PrimaryKeyViolation)
    else if NameTaken(t, c.name.value) then Failure(UniqueViolation("name"))
    else
      var course := Course(c.name.value, OrDefault(c.numHoles, DefaultNumHoles), OrDefault(c.par, DefaultPar));
      Success(t.(courses := t.courses[id := course]))
  }

  /** The driver can bind every integer of a new score. */
  predicate ScoreFits(id: int, s: NewScore)
  {
    Fits(id) && FitsOrNull(s.throws) && FitsOrNull(s.playerId) && FitsOrNull(s.courseId)
  }

  /** All three columns of a new score are given. */
  predicate ScoreComplete(s: NewScore)
  {
    s.throws.Some? && s.playerId.Some? && s.courseId.Some?
  }

  function InsertScore(t: Tables, id: int, s: NewScore): (r: Result<Tables, DbError>)
    ensures r.Success? <==>
      && ScoreFits(id, s) && ScoreComplete(s)
      && id !in t.scores
      && s.playerId.value in t.players && s.courseId.value in t.courses
    ensures !ScoreFits(id, s) ==> r == Failure(IntegerOverflow)
    ensures ScoreFits(id, s) && s.throws.None? ==> r == Failure(NotNullViolation("throws"))
    ensures ScoreFits(id, s) && s.throws.Some? && s.playerId.None? ==> r == Failure(NotNullViolation("player_id"))
    ensures ScoreFits(id, s) && s.throws.Some? && s.playerId.Some? && s.courseId.None? ==>
              r == Failure(NotNullViolation("course_id"))
    ensures ScoreFits(id, s) && ScoreComplete(s) && id in t.scores ==> r == Failure(PrimaryKeyViolation)
    ensures ScoreFits(id, s) && ScoreComplete(s) && id !in t.scores && s.playerId.value !in t.players ==>
              r == Failure(ForeignKeyViolation("player_id"))
    ensures ScoreFits(id, s) && ScoreComplete(s) && id !in t.scores && s.playerId.value in t.players &&
            s.courseId.value !in t.courses ==>
              r == Failure(ForeignKeyViolation("course_id"))
    ensures r.Success? ==>
      AddsEntry(r.value.scores, t.scores, id, Score(s.throws.value, s.playerId.value, s.courseId.value))
    ensures r.Success? ==> r.value.players == t.players && r.value.courses == t.courses
  {
    if !ScoreFits(id, s) then Failure(IntegerOverflow)
    else if s.throws.None? then Failure(NotNullViolation("throws"))
    else if s.playerId.None? then Failure(NotNullViolation("player_id"))
    else if s.courseId.None? then Failure(NotNullViolation("course_id"))
    else if id in t.scores then Failure(PrimaryKeyViolation)
    else if s.playerId.value !in t.players then Failure(ForeignKeyViolation("player_id"))
    else if s.courseId.value !in t.courses then Failure(ForeignKeyViolation("course_id"))
    else Success(t.(scores := t.scores[id := Score(s.throws.value, s.playerId.value, s.courseId.value)]))
  }

  /** The scores recorded by player `pid`. */
  function ScoresOfPlayer(t: Tables, pid: int): set<int>
  {
    set sid | sid in t.scores && t.scores[sid].playerId == pid
  }

  /** The scores recorded on course `cid`. */
  function ScoresOfCourse(t: Tables, cid: int): set<int>
  {
    set sid | sid in t.scores && t.scores[sid].courseId == cid
  }

  /** Deleting a player, with the cascade to its scores. */
  function DeletePlayer(t: Tables, pid: int): (r: Tables)
    ensures KeepsEntries(r.players, t.players, t.players.Keys - {pid})
    ensures r.courses == t.courses
    ensures KeepsEntries(r.scores, t.scores, t.scores.Keys - ScoresOfPlayer(t, pid))
  {
    Tables(
      t.players - {pid},
      t.courses,
      map sid | sid in t.scores && t.scores[sid].playerId != pid :: t.scores[sid])
  }

  /** Deleting a course, with the cascade to its scores. */
  function DeleteCourse(t: Tables, cid: int): (r: Tables)
    ensures KeepsEntries(r.courses, t.courses, t.courses.Keys - {cid})
    ensures r.players == t.players
    ensures KeepsEntries(r.scores, t.scores, t.scores.Keys - ScoresOfCourse(t, cid))
  {
    Tables(
      t.players,
      t.courses - {cid},
      map sid | sid in t.scores && t.scores[sid].courseId != cid :: t.scores[sid])
  }

  /** Deleting a score; nothing depends on it. */
  function DeleteScore(t: Tables, sid: int): (r: Tables)
    ensures KeepsEntries(r.scores, t.scores, t.scores.Keys - {sid})
    ensures r.players == t.players && r.courses == t.courses
  {
    t.(scores := t.scores - {sid})
  }

  lemma InsertPlayerKeepsConsistent(t: Tables, id: int, name: Option<string>)
    requires Consistent(t) && InsertPlayer(t, id, name).Success?
    ensures Consistent(InsertPlayer(t, id, name).value)
  {
  }

  lemma InsertCourseKeepsConsistent(t: Tables, id: int, c: NewCourse)
    requires Consistent(t) && InsertCourse(t, id, c).Success?
    ensures Consistent(InsertCourse(t, id, c).value)
  {
  }

  lemma InsertScoreKeepsConsistent(t: Tables, id: int, s: NewScore)
    requires Consistent(t) && InsertScore(t, id, s).Success?
    ensures Consistent(InsertScore(t, id, s).value)
  {
  }

  lemma DeletePlayerKeepsConsistent(t: Tables, pid: int)
    requires Consistent(t)
    ensures Consistent(DeletePlayer(t, pid))
  {
  }

  lemma DeleteCourseKeepsConsistent(t: Tables, cid: int)
    requires Consistent(t)
    ensures Consistent(DeleteCourse(t, cid))
  {
  }

  lemma DeleteScoreKeepsConsistent(t: Tables, sid: int)
    requires Consistent(t)
    ensures Consistent(DeleteScore(t, sid))
  {
  }

  lemma CardinalityOfDifference(a: set<int>, b: set<int>)
    requires b <= a
    ensures |a - b| == |a| - |b|
  {
    var rest := a - b;
    assert rest * b == {};
    assert rest + b == a;
  }

  /** Deleting a player with N scores leaves N fewer scores. */
  lemma DeletePlayerScoreCount(t: Tables, pid: int)
    ensures |DeletePlayer(t, pid).scores| == |t.scores| - |ScoresOfPlayer(t, pid)|
  {
    var r := DeletePlayer(t, pid);
    assert r.scores.Keys == t.scores.Keys - ScoresOfPlayer(t, pid);
    CardinalityOfDifference(t.scores.Keys, ScoresOfPlayer(t, pid));
  }

  /** Deleting a course with N scores leaves N fewer scores. */
  lemma DeleteCourseScoreCount(t: Tables, cid: int)
    ensures |DeleteCourse(t, cid).scores| == |t.scores| - |ScoresOfCourse(t, cid)|
  {
    var r := DeleteCourse(t, cid);
    assert r.scores.Keys == t.scores.Keys - ScoresOfCourse(t, cid);
    CardinalityOfDifference(t.scores.Keys, ScoresOfCourse(t, cid));
  }

  /** A successful insert into an empty table leaves exactly one row in it. */
  lemma FirstInsertCountsOne(t: Tables, pid: int, name: Option<string>, cid: int, c: NewCourse, sid: int, s: NewScore)
    ensures t.players == map[] && InsertPlayer(t, pid, name).Success? ==> |InsertPlayer(t, pid, name).value.players| == 1
    ensures t.courses == map[] && InsertCourse(t, cid, c).Success? ==> |InsertCourse(t, cid, c).value.courses| == 1
    ensures t.scores == map[] && InsertScore(t, sid, s).Success? ==> |InsertScore(t, sid, s).value.scores| == 1
  {
  }
}
