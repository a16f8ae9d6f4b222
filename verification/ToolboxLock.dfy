/** `.binport/toolbox.json`: the lock file of a toolbox as it is written and read back. */
module ToolboxLock {
  import opened Wrappers
  import opened Text
  import opened Json
  import opened Fields
  import opened OciDocs
  import opened Oci

  const TOOL_FIELDS: seq<string> := ["name", "version", "platform", "sha256", "path"]

  function ToolJson(t: LockedTool): Json {
    JObj([Field("name", JStr(t.name)), Field("version", JStr(t.version)), Field("platform", JStr(t.platform)),
          Field("sha256", JStr(t.sha256)), Field("path", JStr(t.path))])
  }

  function ToolsJson(tools: seq<LockedTool>): (items: seq<Json>)
    ensures |items| == |tools| && forall i :: 0 <= i < |tools| ==> items[i] == ToolJson(tools[i])
  {
    seq(|tools|, i requires 0 <= i < |tools| => ToolJson(tools[i]))
  }

  function LockJson(tools: seq<LockedTool>): Json {
    JObj([Field("format", JNum(1)), Field("tools", JArr(ToolsJson(tools)))])
  }

  function LockBytes(tools: seq<LockedTool>): string {
    Print(LockJson(tools), Pretty, 0) + "\n"
  }

  function ReadTool(v: Json): Option<LockedTool> {
    if !v.JObj? || !OnceEach(v.fields, TOOL_FIELDS) then None
    else
      var name :- AsText(Lookup(v.fields, "name"));
      var version :- AsText(Lookup(v.fields, "version"));
      var platform :- AsText(Lookup(v.fields, "platform"));
      var sha256 :- AsText(Lookup(v.fields, "sha256"));
      var path :- AsText(Lookup(v.fields, "path"));
      Some(LockedTool(name, version, platform, sha256, path))
  }

  function ReadTools(items: seq<Json>): Option<seq<LockedTool>> {
    if items == [] then Some([])
    else
      var first :- ReadTool(items[0]);
      var rest :- ReadTools(items[1..]);
      Some([first] + rest)
  }

  /** The format number has to be there and is not looked at. */
  function ReadLock(v: Json): Option<seq<LockedTool>> {
    if !v.JObj? || !OnceEach(v.fields, ["format", "tools"]) then None
    else
      var format :- AsNat(Lookup(v.fields, "format"));
      match Lookup(v.fields, "tools") case Some(JArr(items)) => ReadTools(items) case _ => None
  }

  function ParseLock(bytes: string): Option<seq<LockedTool>> {
    var v :- Parse(bytes);
    ReadLock(v)
  }

  // ---------------------------------------------------------------- The reader undoes the writer

  predicate TextTool(t: LockedTool) {
    ValidUtf8(t.name) && ValidUtf8(t.version) && ValidUtf8(t.platform) && ValidUtf8(t.sha256) && ValidUtf8(t.path)
  }

  lemma ToolRoundTrip(t: LockedTool)
    ensures ReadTool(ToolJson(t)) == Some(t)
  {
    var f := ToolJson(t).fields;
    assert NoRepeat(f) by {
      assert f[0].key == "name" && f[1].key == "version" && f[2].key == "platform" && f[3].key == "sha256" &&
          f[4].key == "path";
    }
    DistinctOnce(f, TOOL_FIELDS);
    LookupFound(f, 0);
    LookupFound(f, 1);
    LookupFound(f, 2);
    LookupFound(f, 3);
    LookupFound(f, 4);
    hide Lookup, OnceEach, NoRepeat;
  }

  lemma {:induction false} ToolsRoundTrip(tools: seq<LockedTool>)
    ensures ReadTools(ToolsJson(tools)) == Some(tools)
  {
    hide ReadTool, ToolJson;
    if tools != [] {
      ToolRoundTrip(tools[0]);
      ToolsRoundTrip(tools[1..]);
      assert ToolsJson(tools)[1..] == ToolsJson(tools[1..]);
      assert [tools[0]] + tools[1..] == tools;
    }
  }

  lemma LockJsonRoundTrip(tools: seq<LockedTool>)
    ensures ReadLock(LockJson(tools)) == Some(tools)
  {
    hide ToolsJson, ReadTools;
    ToolsRoundTrip(tools);
    var f := LockJson(tools).fields;
    assert NoRepeat(f) by { assert f[0].key == "format" && f[1].key == "tools"; }
    DistinctOnce(f, ["format", "tools"]);
    LookupFound(f, 0);
    LookupFound(f, 1);
    hide Lookup, OnceEach, NoRepeat;
  }

  lemma KeysAreUtf8()
    ensures forall k :: k in TOOL_FIELDS ==> ValidUtf8(k)
    ensures ValidUtf8("format") && ValidUtf8("tools")
  {
    hide ValidUtf8;
    forall i | 0 <= i < |TOOL_FIELDS| ensures ValidUtf8(TOOL_FIELDS[i]) {
      assert Ascii(TOOL_FIELDS[i]);
      AsciiIsUtf8(TOOL_FIELDS[i]);
    }
    assert Ascii("format") && Ascii("tools");
    AsciiIsUtf8("format");
    AsciiIsUtf8("tools");
  }

  lemma ToolWellFormed(t: LockedTool)
    requires TextTool(t)
    ensures WellFormed(ToolJson(t))
  {
    hide ValidUtf8;
    KeysAreUtf8();
    assert forall i :: 0 <= i < 5 ==> TOOL_FIELDS[i] in TOOL_FIELDS;
    var f := ToolJson(t).fields;
    assert forall i :: 0 <= i < 5 ==> f[i].key == TOOL_FIELDS[i];
    assert GoodFields(f);
    ObjectWellFormed(f);
  }

  lemma LockWellFormed(tools: seq<LockedTool>)
    requires forall t :: t in tools ==> TextTool(t)
    ensures WellFormed(LockJson(tools))
  {
    hide ValidUtf8, TextTool, ToolJson;
    KeysAreUtf8();
    var items := ToolsJson(tools);
    forall i | 0 <= i < |items| ensures WellFormed(items[i]) { ToolWellFormed(tools[i]); }
    assert WellFormed(JArr(items));
    assert GoodFields(LockJson(tools).fields);
    ObjectWellFormed(LockJson(tools).fields);
  }

  /** The lock file reads back as it was written, final line feed and all. */
  lemma LockRoundTrip(tools: seq<LockedTool>)
    requires forall t :: t in tools ==> TextTool(t)
    ensures ParseLock(LockBytes(tools)) == Some(tools)
  {
    LockWellFormed(tools);
    LockJsonRoundTrip(tools);
    hide Print, ParseValue, LockJson, ReadLock, WellFormed;
    ValueRoundTrip(LockJson(tools), Pretty, 0, "\n");
  }
}
