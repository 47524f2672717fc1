/**
 * Mason documents and the generic document builder (`MasonBuilder`), plus
 * the uniform error response built with it.
 *
 * A document is a mapping from keys to JSON values; `@error`, `@namespaces`
 * and `@controls` are its reserved keys. The builder's three operations are
 * specified by the pure functions `WithError`, `WithNamespace` and
 * `WithControl`; the class methods perform the same updates step by step,
 * in place, as the builder does.
 */
module Mason {
  import opened Wrappers
  import opened Json

  type Document = map<string, Value>

  const ErrorKey := "@error"
  const NamespacesKey := "@namespaces"
  const ControlsKey := "@controls"

  /** Values the application takes from its constants module. */
  datatype Constants = Constants(mason: string, errorProfile: string, linkRelationsUrl: string)

  /** A response: status code, body document and media type. */
  datatype Response = Response(status: int, body: Document, mimetype: string)

  /** The entries of the section under `key`; none when it is absent or not an object. */
  function Section(d: Document, key: string): map<string, Value>
  {
    if key in d && d[key].Obj? then d[key].fields else map[]
  }

  /** The `@error` object: a title and a list holding exactly one detail. */
  function ErrorObject(title: string, details: Value): Value
  {
    Obj(map["@message" := Str(title), "@messages" := Arr([details])])
  }

  /** `add_error`: `@error` is set (replacing any earlier one) and nothing else changes. */
  function WithError(d: Document, title: string, details: Value): (r: Document)
    ensures r.Keys == d.Keys + {ErrorKey}
    ensures r[ErrorKey] == ErrorObject(title, details)
    ensures forall k :: k in d && k != ErrorKey ==> r[k] == d[k]
  {
    d[ErrorKey := ErrorObject(title, details)]
  }

  /**
   * Stores `v` as entry `entry` of the section under `key`, creating the
   * section first when it is absent. When the key already holds something
   * that is not an object, item assignment fails and there is no result.
   */
  function SetInSection(d: Document, key: string, entry: string, v: Value): (r: Option<Document>)
    ensures r.Some? <==> key !in d || d[key].Obj?
    ensures r.Some? ==> r.value.Keys == d.Keys + {key}
    ensures r.Some? ==> forall k :: k in d && k != key ==> r.value[k] == d[k]
    ensures r.Some? ==> r.value[key].Obj?
    ensures r.Some? ==> Section(r.value, key).Keys == Section(d, key).Keys + {entry}
    ensures r.Some? ==> Section(r.value, key)[entry] == v
    ensures r.Some? ==> forall e :: e in Section(d, key) && e != entry ==>
                          Section(r.value, key)[e] == Section(d, key)[e]
  {
    if key in d && !d[key].Obj? then None
    else Some(d[key := Obj(Section(d, key)[entry := v])])
  }

  /** `add_namespace`: `@namespaces[ns]` becomes `{"name": uri}`. */
  function WithNamespace(d: Document, ns: string, uri: string): Option<Document>
  {
    SetInSection(d, NamespacesKey, ns, Obj(map["name" := Str(uri)]))
  }

  /** A control as stored: the keyword attributes plus `href`. */
  function ControlValue(href: string, attrs: map<string, Value>): Value
  {
    Obj(attrs["href" := Str(href)])
  }

  /**
   * Keyword attributes that collide with a named parameter of `add_control`
   * (`self`, `ctrl_name`, `href`): the call is rejected before its body runs.
   */
  predicate KeywordClash(attrs: map<string, Value>)
  {
    "self" in attrs || "ctrl_name" in attrs || "href" in attrs
  }

  /**
   * `add_control`: `@controls[name]` becomes the attributes plus `href`. There
   * is no result when an attribute clashes with a parameter name or when
   * `@controls` holds something that is not an object.
   */
  function WithControl(d: Document, name: string, href: string, attrs: map<string, Value>): (r: Option<Document>)
    ensures r.Some? <==> !KeywordClash(attrs) && (ControlsKey !in d || d[ControlsKey].Obj?)
    ensures r.Some? ==> r.value.Keys == d.Keys + {ControlsKey}
    ensures r.Some? ==> forall k :: k in d && k != ControlsKey ==> r.value[k] == d[k]
    ensures r.Some? ==> Section(r.value, ControlsKey).Keys == Section(d, ControlsKey).Keys + {name}
    ensures r.Some? ==> Section(r.value, ControlsKey)[name] == Obj(attrs["href" := Str(href)])
  {
    if KeywordClash(attrs) then None
    else SetInSection(d, ControlsKey, name, ControlValue(href, attrs))
  }

  /** Repeating an update of a section entry changes nothing further. */
  lemma SetInSectionIdempotent(d: Document, key: string, entry: string, v: Value)
    requires SetInSection(d, key, entry, v).Some?
    ensures SetInSection(SetInSection(d, key, entry, v).value, key, entry, v) == SetInSection(d, key, entry, v)
  {
    var once := SetInSection(d, key, entry, v).value;
    assert Section(once, key)[entry := v] == Section(once, key);
    assert once[key := Obj(Section(once, key))] == once;
  }

  /** Calling `add_namespace` twice with the same arguments is the same as once. */
  lemma NamespaceIdempotent(d: Document, ns: string, uri: string)
    requires WithNamespace(d, ns, uri).Some?
    ensures WithNamespace(WithNamespace(d, ns, uri).value, ns, uri) == WithNamespace(d, ns, uri)
  {
    SetInSectionIdempotent(d, NamespacesKey, ns, Obj(map["name" := Str(uri)]));
  }

  /** Calling `add_control` twice with the same arguments is the same as once. */
  lemma ControlIdempotent(d: Document, name: string, href: string, attrs: map<string, Value>)
    requires WithControl(d, name, href, attrs).Some?
    ensures WithControl(WithControl(d, name, href, attrs).value, name, href, attrs) == WithControl(d, name, href, attrs)
  {
    SetInSectionIdempotent(d, ControlsKey, name, ControlValue(href, attrs));
  }

  /** `after` is what an update with outcome `r` leaves, and `ok` says whether it succeeded. */
  predicate Applied(before: Document, r: Option<Document>, ok: bool, after: Document)
  {
    ok == r.Some? && after == (if ok then r.value else before)
  }

  /** The error document `create_error_response` builds. */
  function ErrorResponse(consts: Constants, path: string, status: int, title: string, message: Value): (r: Response)
    ensures r.status == status && r.mimetype == consts.mason
    ensures r.body.Keys == {"resource_url", ErrorKey, ControlsKey}
    ensures r.body["resource_url"] == Str(path)
    ensures r.body[ErrorKey] == ErrorObject(title, message)
    ensures r.body[ControlsKey] == Obj(map["profile" := Obj(map["href" := Str(consts.errorProfile)])])
  {
    var withError := WithError(map["resource_url" := Str(path)], title, message);
    var body := WithControl(withError, "profile", consts.errorProfile, map[]).value;
    assert Section(body, ControlsKey) == map["profile" := ControlValue(consts.errorProfile, map[])];
    Response(status, body, consts.mason)
  }

  class MasonBuilder {
    var doc: Document

    constructor (init: Document)
      ensures doc == init
    {
      doc := init;
    }

    method AddError(title: string, details: Value)
      modifies this
      ensures doc == WithError(old(doc), title, details)
    {
      doc := doc[ErrorKey := ErrorObject(title, details)];
    }

    method AddNamespace(ns: string, uri: string) returns (ok: bool)
      modifies this
      ensures Applied(old(doc), WithNamespace(old(doc), ns, uri), ok, doc)
    {
      if NamespacesKey !in doc {
        doc := doc[NamespacesKey := Obj(map[])];
      }
      var namespaces := doc[NamespacesKey];
      if !namespaces.Obj? {
        return false;
      }
      doc := doc[NamespacesKey := Obj(namespaces.fields[ns := Obj(map["name" := Str(uri)])])];
      ok := true;
    }

    method AddControl(name: string, href: string, attrs: map<string, Value>) returns (ok: bool)
      modifies this
      ensures Applied(old(doc), WithControl(old(doc), name, href, attrs), ok, doc)
    {
      if KeywordClash(attrs) {
        return false;
      }
      if ControlsKey !in doc {
        doc := doc[ControlsKey := Obj(map[])];
      }
      var controls := doc[ControlsKey];
      if !controls.Obj? {
        return false;
      }
      assert controls.fields == Section(old(doc), ControlsKey);
      // first the keyword attributes are stored, then `href` is added to them
      doc := doc[ControlsKey := Obj(controls.fields[name := Obj(attrs)])];
      var stored := doc[ControlsKey].fields;
      doc := doc[ControlsKey := Obj(stored[name := ControlValue(href, attrs)])];
      assert stored[name := ControlValue(href, attrs)] == controls.fields[name := ControlValue(href, attrs)];
      assert doc == old(doc)[ControlsKey := Obj(Section(old(doc), ControlsKey)[name := ControlValue(href, attrs)])];
      ok := true;
    }
  }

  /** `create_error_response`, building the body with a `MasonBuilder`. */
  method CreateErrorResponse(consts: Constants, path: string, status: int, title: string, message: Value)
    returns (r: Response)
    ensures r == ErrorResponse(consts, path, status, title, message)
  {
    var body := new MasonBuilder(map["resource_url" := Str(path)]);
    body.AddError(title, message);
    var ok := body.AddControl("profile", consts.errorProfile, map[]);
    r := Response(status, body.doc, consts.mason);
  }
}
