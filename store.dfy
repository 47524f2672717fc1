/**
 * The database as mutable state: one map per table, changed in place by
 * inserts (`session.add` + `commit`) and deletes (`session.delete` +
 * `commit`). Each method does what the matching function of `Models`
 * describes, and keeps the referential-integrity invariant.
 */
module Store {
  import opened Wrappers
  import opened Models

  /**
   * A committed outcome: on success the tables become the new ones and no
   * error is reported; on a constraint violation the error is reported and
   * nothing is written.
   */
  predicate Committed(r: Result<Tables, DbError>, err: Option<DbError>, before: Tables, after: Tables)
  {
    match r
    case Success(t) => err == None && after == t
    case Failure(e) => err == Some(e) && after == before
  }

  class Database {
    var players: map<int, Player>
    var courses: map<int, Course>
    var scores: map<int, Score>

    function Contents(): Tables
      reads this
    {
      Tables(players, courses, scores)
    }

    ghost predicate Valid()
      reads this
    {
      Consistent(Contents())
    }

    /** The freshly created schema: three empty tables. */
    constructor ()
      ensures Valid() && Contents() == NoRows()
    {
      players, courses, scores := map[], map[], map[];
    }

    method InsertPlayer(id: int, name: Option<string>) returns (err: Option<DbError>)
      requires Valid()
      modifies this
      ensures Valid()
      ensures Committed(Models.InsertPlayer(old(Contents()), id, name), err, old(Contents()), Contents())
    {
      if !Fits(id) {
        return Some(IntegerOverflow);
      }
      if name.None? {
        return Some(NotNullViolation("name"));
      }
      if id in players {
        return Some(PrimaryKeyViolation);
      }
      InsertPlayerKeepsConsistent(Contents(), id, name);
      players := players[id := Player(name.value)];
      err := None;
    }

    method InsertCourse(id: int, c: NewCourse) returns (err: Option<DbError>)
      requires Valid()
      modifies this
      ensures Valid()
      ensures Committed(Models.InsertCourse(old(Contents()), id, c), err, old(Contents()), Contents())
    {
      if !CourseFits(id, c) {
        return Some(IntegerOverflow);
      }
      if c.name.None? {
        return Some(NotNullViolation("name"));
      }
      if id in courses {
        return Some(PrimaryKeyViolation);
      }
      if NameTaken(Contents(), c.name.value) {
        return Some(UniqueViolation("name"));
      }
      var numHoles := DefaultNumHoles;
      if c.numHoles.Some? {
        numHoles := c.numHoles.value;
      }
      var par := DefaultPar;
      if c.par.Some? {
        par := c.par.value;
      }
      InsertCourseKeepsConsistent(Contents(), id, c);
      courses := courses[id := Course(c.name.value, numHoles, par)];
      err := None;
    }

    method InsertScore(id: int, s: NewScore) returns (err: Option<DbError>)
      requires Valid()
      modifies this
      ensures Valid()
      ensures Committed(Models.InsertScore(old(Contents()), id, s), err, old(Contents()), Contents())
    {
      if !ScoreFits(id, s) {
        return Some(IntegerOverflow);
      }
      if s.throws.None? {
        return Some(NotNullViolation("throws"));
      }
      if s.playerId.None? {
        return Some(NotNullViolation("player_id"));
      }
      if s.courseId.None? {
        return Some(NotNullViolation("course_id"));
      }
      if id in scores {
        return Some(PrimaryKeyViolation);
      }
      if s.playerId.value !in players {
        return Some(ForeignKeyViolation("player_id"));
      }
      if s.courseId.value !in courses {
        return Some(ForeignKeyViolation("course_id"));
      }
      InsertScoreKeepsConsistent(Contents(), id, s);
      scores := scores[id := Score(s.throws.value, s.playerId.value, s.courseId.value)];
      err := None;
    }

    /** Deletes a player and, by cascade, its scores; `found` says whether the player existed. */
    method DeletePlayer(pid: int) returns (found: bool)
      requires Valid()
      modifies this
      ensures Valid()
      ensures found == (pid in old(players))
      ensures Contents() == Models.DeletePlayer(old(Contents()), pid)
    {
      DeletePlayerKeepsConsistent(Contents(), pid);
      found := pid in players;
      scores := map sid | sid in scores && scores[sid].playerId != pid :: scores[sid];
      players := players - {pid};
    }

    /** Deletes a course and, by cascade, its scores; `found` says whether the course existed. */
    method DeleteCourse(cid: int) returns (found: bool)
      requires Valid()
      modifies this
      ensures Valid()
      ensures found == (cid in old(courses))
      ensures Contents() == Models.DeleteCourse(old(Contents()), cid)
    {
      DeleteCourseKeepsConsistent(Contents(), cid);
      found := cid in courses;
      scores := map sid | sid in scores && scores[sid].courseId != cid :: scores[sid];
      courses := courses - {cid};
    }

    /** Deletes a score; `found` says whether it existed. */
    method DeleteScore(sid: int) returns (found: bool)
      requires Valid()
      modifies this
      ensures Valid()
      ensures found == (sid in old(scores))
      ensures Contents() == Models.DeleteScore(old(Contents()), sid)
    {
      DeleteScoreKeepsConsistent(Contents(), sid);
      found := sid in scores;
      scores := scores - {sid};
    }
  }
}
