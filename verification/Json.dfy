// JSON documents, and the dotted paths that address their fields.
module Json {
  datatype Option<+T> = None | Some(value: T)

  datatype Json =
    | JNull
    | JBool(flag: bool)
    | JNumber(amount: real)
    | JString(text: string)
    | JArray(items: seq<Json>)
    | JObject(fields: map<string, Json>)

  predicate Primitive(j: Json) { !j.JArray? && !j.JObject? }

  /** The value a sequence of object fields leads to; nothing when a field is missing
      or an intermediate value is not an object. */
  function Lookup(doc: Json, segments: seq<string>): Option<Json>
    decreases |segments|
  {
    if segments == [] then Some(doc)
    else if doc.JObject? && segments[0] in doc.fields then Lookup(doc.fields[segments[0]], segments[1..])
    else None
  }

  // ---- Dotted paths ----

  predicate Dotless(s: string) { '.' !in s }

  predicate AllDotless(segments: seq<string>) { forall i :: 0 <= i < |segments| ==> Dotless(segments[i]) }

  function Join(segments: seq<string>): string
    requires segments != []
  {
    var last := segments[|segments| - 1];
    if |segments| == 1 then last else Join(segments[..|segments| - 1]) + "." + last
  }

  /** Position of the last dot. */
  function LastDot(path: string): (i: nat)
    requires '.' in path
    ensures i < |path| && path[i] == '.' && '.' !in path[i + 1..]
  {
    if path[|path| - 1] == '.' then |path| - 1 else
      var init := path[..|path| - 1];
      var i := LastDot(init);
      assert path[i + 1..] == init[i + 1..] + [path[|path| - 1]];
      i
  }

  function Split(path: string): (segments: seq<string>)
    ensures segments != []
    decreases |path|
  {
    if '.' !in path then [path] else
      var i := LastDot(path);
      Split(path[..i]) + [path[i + 1..]]
  }

  lemma {:induction false} JoinSplit(path: string)
    ensures Join(Split(path)) == path
    decreases |path|
  {
    if '.' in path {
      var i := LastDot(path);
      JoinSplit(path[..i]);
      var segments := Split(path);
      assert segments[..|segments| - 1] == Split(path[..i]);
      assert path == path[..i] + "." + path[i + 1..];
    }
  }

  lemma {:induction false} SplitJoin(segments: seq<string>)
    requires segments != [] && AllDotless(segments)
    ensures Split(Join(segments)) == segments
    decreases |segments|
  {
    var init, last := segments[..|segments| - 1], segments[|segments| - 1];
    if |segments| > 1 {
      SplitJoin(init);
      var path := Join(segments);
      var dot := |Join(init)|;
      assert path[dot] == '.';
      assert path[dot + 1..] == last;
      assert path[..dot] == Join(init);
    }
    assert segments == init + [last];
  }
}
