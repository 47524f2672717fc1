/**
 * The request handlers that hold logic: the entry point's root document,
 * and the lookup-or-404 of the player, course and score collections. A
 * lookup reads the tables and either answers with a 404 error document or
 * produces nothing (the handler falls through without a response).
 */
module Resources {
  import opened Wrappers
  import opened Json
  import opened Mason
  import opened Models
  import Decimal

  /** The targets the router gives for the three collections. */
  datatype CollectionHrefs = CollectionHrefs(players: string, courses: string, scores: string)

  /** A control that carries only its target. */
  function Link(href: string): Value
  {
    Obj(map["href" := Str(href)])
  }

  /** `EntryPoint.get`: the root document advertising the three collections. */
  method EntryGet(consts: Constants, hrefs: CollectionHrefs) returns (r: Response)
    ensures r.status == 200 && r.mimetype == consts.mason
    ensures r.body.Keys == {NamespacesKey, ControlsKey}
    ensures r.body[NamespacesKey] == Obj(map["frolf" := Obj(map["name" := Str(consts.linkRelationsUrl)])])
    ensures r.body[ControlsKey] == Obj(map[
      "players-all" := Link(hrefs.players),
      "courses-all" := Link(hrefs.courses),
      "scores-all" := Link(hrefs.scores)])
  {
    var body := new MasonBuilder(map[]);
    var ok := body.AddNamespace("frolf", consts.linkRelationsUrl);
    assert Section(body.doc, NamespacesKey) == map["frolf" := Obj(map["name" := Str(consts.linkRelationsUrl)])];
    ok := body.AddControl("players-all", hrefs.players, map[]);
    assert Section(body.doc, ControlsKey) == map["players-all" := Link(hrefs.players)];
    ok := body.AddControl("courses-all", hrefs.courses, map[]);
    assert Section(body.doc, ControlsKey) == map["players-all" := Link(hrefs.players), "courses-all" := Link(hrefs.courses)];
    ok := body.AddControl("scores-all", hrefs.scores, map[]);
    assert Section(body.doc, ControlsKey) == map[
      "players-all" := Link(hrefs.players),
      "courses-all" := Link(hrefs.courses),
      "scores-all" := Link(hrefs.scores)];
    r := Response(200, body.doc, consts.mason);
  }

  /**
   * The whole 404 error document for `path` whose one detail is `detail`:
   * Mason media type, the request path, the error and the error profile.
   */
  predicate IsNotFound(r: Response, consts: Constants, path: string, detail: string)
  {
    && r.status == 404
    && r.mimetype == consts.mason
    && r.body.Keys == {"resource_url", ErrorKey, ControlsKey}
    && r.body["resource_url"] == Str(path)
    && r.body[ErrorKey] == ErrorObject("Not found", Str(detail))
    && r.body[ControlsKey] == Obj(map["profile" := Obj(map["href" := Str(consts.errorProfile)])])
  }

  /** The 404 answer for a missing entity. */
  function NotFound(consts: Constants, path: string, detail: string): Response
  {
    ErrorResponse(consts, path, 404, "Not found", Str(detail))
  }

  /**
   * The lookup shared by the three collections. The query binds the id
   * through the driver, so an id outside 64 bits fails before the table is
   * read; otherwise a present id produces nothing and a missing one a 404.
   */
  function Lookup<T>(rows: map<int, T>, consts: Constants, path: string, prefix: string, id: int)
    : (r: Result<Option<Response>, DbError>)
    ensures r.Failure? <==> !Fits(id)
    ensures r.Failure? ==> r.error == IntegerOverflow
    ensures r == Success(None) <==> Fits(id) && id in rows
    ensures r.Success? && r.value.Some? ==> IsNotFound(r.value.value, consts, path, prefix + Decimal.Format(id))
  {
    if !Fits(id) then Failure(IntegerOverflow)
    else if id in rows then Success(None)
    else Success(Some(NotFound(consts, path, prefix + Decimal.Format(id))))
  }

  const PlayerPrefix := "No player found with the id "
  const CoursePrefix := "No course found with the id "
  const ScorePrefix := "No score found with the id "

  /** `PlayerCollection.get`: a 404 exactly when no player has the id. */
  function PlayerCollectionGet(t: Tables, consts: Constants, path: string, playerId: int)
    : (r: Result<Option<Response>, DbError>)
    ensures r.Failure? <==> !Fits(playerId)
    ensures r == Success(None) <==> Fits(playerId) && playerId in t.players
    ensures r.Success? && r.value.Some? ==>
      IsNotFound(r.value.value, consts, path, "No player found with the id " + Decimal.Format(playerId))
  {
    Lookup(t.players, consts, path, PlayerPrefix, playerId)
  }

  /** `CourseCollection.get`: a 404 exactly when no course has the id. */
  function CourseCollectionGet(t: Tables, consts: Constants, path: string, courseId: int)
    : (r: Result<Option<Response>, DbError>)
    ensures r.Failure? <==> !Fits(courseId)
    ensures r == Success(None) <==> Fits(courseId) && courseId in t.courses
    ensures r.Success? && r.value.Some? ==>
      IsNotFound(r.value.value, consts, path, "No course found with the id " + Decimal.Format(courseId))
  {
    Lookup(t.courses, consts, path, CoursePrefix, courseId)
  }

  /** `ScoreCollection.get`: a 404 exactly when no score has the id. */
  function ScoreCollectionGet(t: Tables, consts: Constants, path: string, scoreId: int)
    : (r: Result<Option<Response>, DbError>)
    ensures r.Failure? <==> !Fits(scoreId)
    ensures r == Success(None) <==> Fits(scoreId) && scoreId in t.scores
    ensures r.Success? && r.value.Some? ==>
      IsNotFound(r.value.value, consts, path, "No score found with the id " + Decimal.Format(scoreId))
  {
    Lookup(t.scores, consts, path, ScorePrefix, scoreId)
  }

  /** A 404 detail names its id: details for two different ids always differ. */
  lemma DetailIdentifiesId(prefix: string, a: int, b: int)
    requires prefix + Decimal.Format(a) == prefix + Decimal.Format(b)
    ensures a == b
  {
    assert Decimal.Format(a) == (prefix + Decimal.Format(a))[|prefix|..];
    assert Decimal.Format(b) == (prefix + Decimal.Format(b))[|prefix|..];
    Decimal.FormatInjective(a, b);
  }

  /** The answer of a lookup is a 404 error document. */
  predicate Is404(r: Result<Option<Response>, DbError>)
  {
    r.Success? && r.value.Some?
  }

  /** Two 404 answers of the same lookup that are alike were for the same id. */
  lemma NotFoundIdentifiesId(t: Tables, consts: Constants, path: string, a: int, b: int)
    ensures (Is404(PlayerCollectionGet(t, consts, path, a)) &&
             PlayerCollectionGet(t, consts, path, a) == PlayerCollectionGet(t, consts, path, b)) ==> a == b
    ensures (Is404(CourseCollectionGet(t, consts, path, a)) &&
             CourseCollectionGet(t, consts, path, a) == CourseCollectionGet(t, consts, path, b)) ==> a == b
    ensures (Is404(ScoreCollectionGet(t, consts, path, a)) &&
             ScoreCollectionGet(t, consts, path, a) == ScoreCollectionGet(t, consts, path, b)) ==> a == b
  {
    var ra, rb := PlayerCollectionGet(t, consts, path, a), PlayerCollectionGet(t, consts, path, b);
    if Is404(ra) && ra == rb {
      SameDetail(ra.value.value, consts, path, PlayerPrefix, a, b);
    }
    ra, rb := CourseCollectionGet(t, consts, path, a), CourseCollectionGet(t, consts, path, b);
    if Is404(ra) && ra == rb {
      SameDetail(ra.value.value, consts, path, CoursePrefix, a, b);
    }
    ra, rb := ScoreCollectionGet(t, consts, path, a), ScoreCollectionGet(t, consts, path, b);
    if Is404(ra) && ra == rb {
      SameDetail(ra.value.value, consts, path, ScorePrefix, a, b);
    }
  }

  lemma SameDetail(r: Response, consts: Constants, path: string, prefix: string, a: int, b: int)
    requires IsNotFound(r, consts, path, prefix + Decimal.Format(a))
    requires IsNotFound(r, consts, path, prefix + Decimal.Format(b))
    ensures a == b
  {
    var messages := r.body[ErrorKey].fields["@messages"].items;
    assert messages[0] == Str(prefix + Decimal.Format(a)) == Str(prefix + Decimal.Format(b));
    DetailIdentifiesId(prefix, a, b);
  }
}
