/**
 * The application's builder (`FrolftrackerBuilder`): ready-made controls
 * under the `frolf:` namespace. Each control has a fixed name, method,
 * title and, for the forms that create or edit an entity, the `json`
 * encoding and that entity's schema. Targets and schemas are given by the
 * caller, as the router and the schema registry produce them.
 */
module Frolf {
  import opened Wrappers
  import opened Json
  import opened Mason

  /** A control to add: its name, its target and its keyword attributes. */
  datatype Control = Control(name: string, href: string, attrs: map<string, Value>)

  /** A form control: method, `json` encoding, a title and the schema, and nothing else. */
  predicate IsFormControl(c: Control, verb: string, schema: Value)
  {
    && c.attrs.Keys == {"method", "encoding", "title", "schema"}
    && c.attrs["method"] == Str(verb)
    && c.attrs["encoding"] == Str("json")
    && c.attrs["title"].Str?
    && c.attrs["schema"] == schema
  }

  /** A delete control: named `frolf:delete`, method DELETE and a title, no schema or encoding. */
  predicate IsDeleteControl(c: Control)
  {
    && c.name == "frolf:delete"
    && c.attrs.Keys == {"method", "title"}
    && c.attrs["method"] == Str("DELETE")
    && c.attrs["title"].Str?
  }

  function FormControl(name: string, href: string, verb: string, title: string, schema: Value): (c: Control)
    ensures IsFormControl(c, verb, schema)
  {
    Control(name, href, map["method" := Str(verb), "encoding" := Str("json"), "title" := Str(title), "schema" := schema])
  }

  function DeleteControl(href: string, title: string): (c: Control)
    ensures IsDeleteControl(c)
  {
    Control("frolf:delete", href, map["method" := Str("DELETE"), "title" := Str(title)])
  }

  function AddPlayerControl(href: string, playerSchema: Value): (c: Control)
    ensures c.name == "frolf:add-player" && c.href == href
    ensures IsFormControl(c, "POST", playerSchema) && c.attrs["title"] == Str("Add a new player")
  {
    FormControl("frolf:add-player", href, "POST", "Add a new player", playerSchema)
  }

  function DeletePlayerControl(href: string): (c: Control)
    ensures IsDeleteControl(c) && c.href == href && c.attrs["title"] == Str("Delete this player")
  {
    DeleteControl(href, "Delete this player")
  }

  function ModifyPlayerControl(href: string, playerSchema: Value): (c: Control)
    ensures c.name == "frolf:modify-player" && c.href == href
    ensures IsFormControl(c, "PUT", playerSchema) && c.attrs["title"] == Str("Edit this player")
  {
    FormControl("frolf:modify-player", href, "PUT", "Edit this player", playerSchema)
  }

  function AddCourseControl(href: string, courseSchema: Value): (c: Control)
    ensures c.name == "frolf:add-course" && c.href == href
    ensures IsFormControl(c, "POST", courseSchema) && c.attrs["title"] == Str("Add a new course")
  {
    FormControl("frolf:add-course", href, "POST", "Add a new course", courseSchema)
  }

  function DeleteCourseControl(href: string): (c: Control)
    ensures IsDeleteControl(c) && c.href == href && c.attrs["title"] == Str("Delete this course")
  {
    DeleteControl(href, "Delete this course")
  }

  function ModifyCourseControl(href: string, courseSchema: Value): (c: Control)
    ensures c.name == "frolf:modify-course" && c.href == href
    ensures IsFormControl(c, "PUT", courseSchema) && c.attrs["title"] == Str("Edit this course")
  {
    FormControl("frolf:modify-course", href, "PUT", "Edit this course", courseSchema)
  }

  function AddScoreControl(href: string, scoreSchema: Value): (c: Control)
    ensures c.name == "frolf:add-score" && c.href == href
    ensures IsFormControl(c, "POST", scoreSchema) && c.attrs["title"] == Str("Add a new score")
  {
    FormControl("frolf:add-score", href, "POST", "Add a new score", scoreSchema)
  }

  function DeleteScoreControl(href: string): (c: Control)
    ensures IsDeleteControl(c) && c.href == href && c.attrs["title"] == Str("Delete this score")
  {
    DeleteControl(href, "Delete this score")
  }

  function ModifyScoreControl(href: string, scoreSchema: Value): (c: Control)
    ensures c.name == "frolf:modify-score" && c.href == href
    ensures IsFormControl(c, "PUT", scoreSchema) && c.attrs["title"] == Str("Edit this score")
  {
    FormControl("frolf:modify-score", href, "PUT", "Edit this score", scoreSchema)
  }

  /** The document after adding control `c` with `add_control`. */
  function WithFrolfControl(d: Document, c: Control): Option<Document>
  {
    WithControl(d, c.name, c.href, c.attrs)
  }

  /**
   * Once a delete control is in a document, `@controls["frolf:delete"]`
   * carries method DELETE and no schema or encoding: all three entities'
   * delete controls share this one name, so a later one replaces an earlier.
   */
  lemma DeleteControlStored(d: Document, c: Control)
    requires IsDeleteControl(c)
    requires WithFrolfControl(d, c).Some?
    ensures var controls := Section(WithFrolfControl(d, c).value, ControlsKey);
      && "frolf:delete" in controls
      && controls["frolf:delete"].Obj?
      && controls["frolf:delete"].fields.Keys == {"method", "title", "href"}
      && controls["frolf:delete"].fields["method"] == Str("DELETE")
      && controls["frolf:delete"].fields["href"] == Str(c.href)
  {
  }

  /** A stored form control carries its method, the `json` encoding and the schema. */
  lemma FormControlStored(d: Document, c: Control, verb: string, schema: Value)
    requires IsFormControl(c, verb, schema)
    requires WithFrolfControl(d, c).Some?
    ensures var controls := Section(WithFrolfControl(d, c).value, ControlsKey);
      && c.name in controls
      && controls[c.name].Obj?
      && controls[c.name].fields.Keys == {"method", "encoding", "title", "schema", "href"}
      && controls[c.name].fields["method"] == Str(verb)
      && controls[c.name].fields["encoding"] == Str("json")
      && controls[c.name].fields["schema"] == schema
      && controls[c.name].fields["href"] == Str(c.href)
  {
  }

  class FrolftrackerBuilder {
    const mason: MasonBuilder

    constructor (init: Document)
      ensures fresh(mason) && mason.doc == init
    {
      mason := new MasonBuilder(init);
    }

    method Add(c: Control) returns (ok: bool)
      modifies mason
      ensures Applied(old(mason.doc), WithFrolfControl(old(mason.doc), c), ok, mason.doc)
    {
      ok := mason.AddControl(c.name, c.href, c.attrs);
    }

    method AddControlAddPlayer(href: string, playerSchema: Value) returns (ok: bool)
      modifies mason
      ensures Applied(old(mason.doc), WithFrolfControl(old(mason.doc), AddPlayerControl(href, playerSchema)), ok, mason.doc)
    {
      ok := Add(AddPlayerControl(href, playerSchema));
    }

    method AddControlDeletePlayer(href: string) returns (ok: bool)
      modifies mason
      ensures Applied(old(mason.doc), WithFrolfControl(old(mason.doc), DeletePlayerControl(href)), ok, mason.doc)
    {
      ok := Add(DeletePlayerControl(href));
    }

    method AddControlModifyPlayer(href: string, playerSchema: Value) returns (ok: bool)
      modifies mason
      ensures Applied(old(mason.doc), WithFrolfControl(old(mason.doc), ModifyPlayerControl(href, playerSchema)), ok, mason.doc)
    {
      ok := Add(ModifyPlayerControl(href, playerSchema));
    }

    method AddControlAddCourse(href: string, courseSchema: Value) returns (ok: bool)
      modifies mason
      ensures Applied(old(mason.doc), WithFrolfControl(old(mason.doc), AddCourseControl(href, courseSchema)), ok, mason.doc)
    {
      ok := Add(AddCourseControl(href, courseSchema));
    }

    method AddControlDeleteCourse(href: string) returns (ok: bool)
      modifies mason
      ensures Applied(old(mason.doc), WithFrolfControl(old(mason.doc), DeleteCourseControl(href)), ok, mason.doc)
    {
      ok := Add(DeleteCourseControl(href));
    }

    method AddControlModifyCourse(href: string, courseSchema: Value) returns (ok: bool)
      modifies mason
      ensures Applied(old(mason.doc), WithFrolfControl(old(mason.doc), ModifyCourseControl(href, courseSchema)), ok, mason.doc)
    {
      ok := Add(ModifyCourseControl(href, courseSchema));
    }

    method AddControlAddScore(href: string, scoreSchema: Value) returns (ok: bool)
      modifies mason
      ensures Applied(old(mason.doc), WithFrolfControl(old(mason.doc), AddScoreControl(href, scoreSchema)), ok, mason.doc)
    {
      ok := Add(AddScoreControl(href, scoreSchema));
    }

    method AddControlDeleteScore(href: string) returns (ok: bool)
      modifies mason
      ensures Applied(old(mason.doc), WithFrolfControl(old(mason.doc), DeleteScoreControl(href)), ok, mason.doc)
    {
      ok := Add(DeleteScoreControl(href));
    }

    method AddControlModifyScore(href: string, scoreSchema: Value) returns (ok: bool)
      modifies mason
      ensures Applied(old(mason.doc), WithFrolfControl(old(mason.doc), ModifyScoreControl(href, scoreSchema)), ok, mason.doc)
    {
      ok := Add(ModifyScoreControl(href, scoreSchema));
    }
  }
}
