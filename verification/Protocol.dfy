// The text form of the messages exchanged between camera clients and the server,
// and what printing followed by parsing keeps.
module Protocol {
  import opened Options
  import opened CText
  import opened Search

  datatype FileInfoMsg = FileInfoMsg(
    utc: string, gid: string, uid: string, cid: string, grid: string, field: string,
    tmobs: string, subpath: string, filename: string, filesize: int)

  datatype FileStatMsg = FileStatMsg(utc: string, gid: string, uid: string, cid: string, status: int)

  // The fields of cooler and vacuum messages are not modelled, only their arrival.
  datatype Message =
    | FileInfo(info: FileInfoMsg)
    | FileStat(stat: FileStatMsg)
    | Cooler
    | Vacuum

  const KEYS := ["group_id", "unit_id", "cam_id", "grid_id", "field_id", "tmobs", "subpath", "filename", "filesize"]

  const STATUS_KEYS := ["status"]

  // ---- printing ----

  function KeyValueText(key: string, value: string): string {
    key + "=" + value
  }

  function JoinAll(keys: seq<string>, values: seq<string>): string
    requires |keys| == |values|
  {
    if keys == [] then ""
    else
      var n := |keys| - 1;
      JoinAll(keys[..n], values[..n]) + KeyValueText(keys[n], values[n]) + ","
  }

  // What a slot of the output pool holds, up to its terminating NUL.
  function Emitted(output: string): string {
    UpToNul(TrimRightIf(output, IsPunctOrSpace)) + "\n"
  }

  function InfoValues(p: FileInfoMsg): seq<string> {
    [p.gid, p.uid, p.cid, p.grid, p.field, p.tmobs, p.subpath, p.filename, ToDecimal(p.filesize)]
  }

  function InfoText(p: FileInfoMsg): string {
    "fileinfo" + " " + JoinAll(KEYS, InfoValues(p))
  }

  function InfoLine(p: FileInfoMsg): string {
    Emitted(InfoText(p))
  }

  function StatText(p: FileStatMsg): string {
    "filestat" + " " + JoinAll(STATUS_KEYS, [ToDecimal(p.status)])
  }

  function StatLine(p: FileStatMsg): string {
    Emitted(StatText(p))
  }

  // ---- parsing ----

  // A token counts only when both its keyword and its value are non-empty after trimming.
  function Keyword(kv: string): string {
    Trim(Split(kv, '=')[0])
  }

  function Value(kv: string): string {
    var t := Split(kv, '=');
    if |t| > 1 then Trim(t[1]) else ""
  }

  predicate WellFormed(kv: string) {
    Keyword(kv) != "" && Value(kv) != ""
  }

  predicate Carries(kv: string, key: string) {
    WellFormed(kv) && IEquals(Keyword(kv), key)
  }

  // The value of the last well-formed token whose keyword is key, ignoring case.
  function LastValue(tokens: seq<string>, key: string): Option<string> {
    var r := LastWhere(tokens, t => Carries(t, key));
    if r == 0 then None else Some(Value(tokens[r - 1]))
  }

  function TextField(tokens: seq<string>, key: string): string {
    LastValue(tokens, key).GetOr("")
  }

  function IntField(tokens: seq<string>, key: string): int {
    match LastValue(tokens, key)
    case Some(v) => Atoi(v)
    case None => 0
  }

  function InfoOf(tokens: seq<string>): FileInfoMsg {
    FileInfoMsg(
      "", TextField(tokens, "group_id"), TextField(tokens, "unit_id"), TextField(tokens, "cam_id"),
      TextField(tokens, "grid_id"), TextField(tokens, "field_id"), TextField(tokens, "tmobs"),
      TextField(tokens, "subpath"), TextField(tokens, "filename"), IntField(tokens, "filesize"))
  }

  function StatOf(tokens: seq<string>): FileStatMsg {
    FileStatMsg("", "", "", "", IntField(tokens, "status"))
  }

  function TypeOf(text: string): string {
    text[..IndexOf(text, ' ')]
  }

  function TokensOf(text: string): seq<string> {
    var body := SkipRun(text[IndexOf(text, ' ')..], ' ');
    if body == "" then [] else Split(body, ',')
  }

  // The first letter of the type is compared as it is, the whole type ignoring case.
  function Resolve(rcvd: string): Option<Message> {
    var text := UpToNul(rcvd);
    var kind := TypeOf(text);
    if kind == "" then None
    else if kind[0] == 'c' then
      if IEquals(kind, "cooler") then Some(Cooler) else None
    else if kind[0] == 'f' then
      if IEquals(kind, "fileinfo") then Some(FileInfo(InfoOf(TokensOf(text))))
      else if IEquals(kind, "filestat") then Some(FileStat(StatOf(TokensOf(text))))
      else None
    else if kind[0] == 'v' then
      if IEquals(kind, "vacuum") then Some(Vacuum) else None
    else None
  }

  // ---- which messages survive ----

  // No character that separates or ends anything, and nothing to trim.
  predicate Clean(v: string) {
    ',' !in v && '=' !in v && '\0' !in v && NoOuterSpace(v)
  }

  predicate CleanInfo(p: FileInfoMsg) {
    p.utc == "" && Clean(p.gid) && Clean(p.uid) && Clean(p.cid) && Clean(p.grid) && Clean(p.field)
    && Clean(p.tmobs) && Clean(p.subpath) && Clean(p.filename) && FitsInt(p.filesize)
  }

  predicate CleanStat(p: FileStatMsg) {
    p.utc == p.gid == p.uid == p.cid == "" && FitsInt(p.status)
  }

  // The keywords of a message, pairwise different ignoring case.
  predicate DistinctKeys(keys: seq<string>) {
    (forall i | 0 <= i < |keys| :: keys[i] != "" && keys[i][0] != ',' && keys[i][0] != ' ' && Clean(keys[i]))
    && forall i, j | 0 <= i < j < |keys| :: !IEquals(keys[i], keys[j])
  }

  lemma CleanKey(k: string)
    requires forall c | c in k :: 'a' <= c <= 'z' || c == '_'
    ensures Clean(k)
  {
    assert forall i | 0 <= i < |k| :: k[i] in k;
  }

  lemma DifferAt(a: string, b: string, i: nat)
    requires |a| != |b| || (i < |a| && Upper(a[i]) != Upper(b[i]))
    ensures !IEquals(a, b)
  {
  }

  // The keywords differ in length or in one of the letters 0, 2 and 4.
  lemma InfoKeysDistinct()
    ensures DistinctKeys(KEYS)
  {
    forall i | 0 <= i < |KEYS|
      ensures KEYS[i] != "" && KEYS[i][0] != ',' && KEYS[i][0] != ' ' && Clean(KEYS[i])
    {
      CleanKey(KEYS[i]);
    }
    forall i, j | 0 <= i < j < |KEYS|
      ensures !IEquals(KEYS[i], KEYS[j])
    {
      if i == 7 {
        DifferAt(KEYS[i], KEYS[j], 4);
      } else if i == 4 {
        DifferAt(KEYS[i], KEYS[j], 2);
      } else {
        DifferAt(KEYS[i], KEYS[j], 0);
      }
    }
  }

  // ---- proofs ----

  lemma CleanTokenParts(key: string, value: string, suffix: string)
    requires Clean(key) && Clean(value) && key != ""
    requires forall c | c in suffix :: IsSpace(c)
    ensures Keyword(KeyValueText(key, value + suffix)) == key
    ensures Value(KeyValueText(key, value + suffix)) == value
  {
    hide Split, Trim;
    SplitPair(key, value + suffix, '=');
    TrimSuffix(value, suffix);
    TrimId(key);
  }

  // Joining at the front instead of at the back.
  lemma {:induction false} JoinAllFront(keys: seq<string>, values: seq<string>)
    requires |keys| == |values| > 0
    ensures JoinAll(keys, values) == KeyValueText(keys[0], values[0]) + "," + JoinAll(keys[1..], values[1..])
  {
    var n := |keys| - 1;
    if n == 0 {
      assert keys[..0] == [] && keys[1..] == [];
    } else {
      JoinAllFront(keys[..n], values[..n]);
      assert keys[..n][1..] == keys[1..][..n - 1] && values[..n][1..] == values[1..][..n - 1];
    }
  }

  function Tokens(keys: seq<string>, values: seq<string>): seq<string>
    requires |keys| == |values|
  {
    seq(|keys|, i requires 0 <= i < |keys| => KeyValueText(keys[i], values[i]))
  }

  lemma JoinStart(keys: seq<string>, values: seq<string>, last: string)
    requires |keys| == |values| && DistinctKeys(keys)
    requires ',' !in last && last != ""
    ensures (JoinAll(keys, values) + last)[0] != ','
  {
    hide Clean;
    if keys == [] {
      assert JoinAll(keys, values) + last == last;
      assert last[0] in last;
    } else {
      JoinAllFront(keys, values);
    }
  }

  lemma {:induction false} SplitJoin(keys: seq<string>, values: seq<string>, last: string)
    requires |keys| == |values| && DistinctKeys(keys) && forall v | v in values :: Clean(v)
    requires ',' !in last && last != ""
    ensures Split(JoinAll(keys, values) + last, ',') == Tokens(keys, values) + [last]
  {
    hide Split, IEquals;
    if keys == [] {
      assert JoinAll(keys, values) + last == last;
      SplitNone(last, ',');
    } else {
      var head := KeyValueText(keys[0], values[0]);
      var rest := JoinAll(keys[1..], values[1..]) + last;
      JoinAllFront(keys, values);
      assert JoinAll(keys, values) + last == head + [','] + rest;
      assert values[0] in values;
      JoinStart(keys[1..], values[1..], last);
      SplitFirst(head, rest, ',');
      SplitJoin(keys[1..], values[1..], last);
      assert Tokens(keys, values) == [head] + Tokens(keys[1..], values[1..]);
    }
  }

  // ---- a printed message read back, whatever white space follows it ----

  predicate Printable(kind: string, keys: seq<string>, values: seq<string>) {
    && |keys| == |values| > 0
    && DistinctKeys(keys)
    && (forall v | v in values :: Clean(v))
    && kind != "" && ' ' !in kind && '\0' !in kind
    && var last := values[|values| - 1];
    last != "" && !IsPunctOrSpace(last[|last| - 1])
  }

  // The printed text without its final comma.
  function Body(kind: string, keys: seq<string>, values: seq<string>): string
    requires |keys| == |values| > 0
  {
    var n := |keys| - 1;
    kind + " " + JoinAll(keys[..n], values[..n]) + KeyValueText(keys[n], values[n])
  }

  lemma {:induction false} JoinHasNo(keys: seq<string>, values: seq<string>, c: char)
    requires |keys| == |values| && c != '=' && c != ','
    requires (forall k | k in keys :: c !in k) && forall v | v in values :: c !in v
    ensures c !in JoinAll(keys, values)
  {
    if keys != [] {
      var n := |keys| - 1;
      assert keys[n] in keys && values[n] in values;
      JoinHasNo(keys[..n], values[..n], c);
    }
  }

  lemma BodyHasNo(kind: string, keys: seq<string>, values: seq<string>, c: char)
    requires |keys| == |values| > 0 && c != '=' && c != ',' && c != ' ' && c !in kind
    requires (forall k | k in keys :: c !in k) && forall v | v in values :: c !in v
    ensures c !in Body(kind, keys, values)
  {
    var n := |keys| - 1;
    JoinHasNo(keys[..n], values[..n], c);
    assert keys[n] in keys && values[n] in values;
  }

  lemma BodyHasNoNul(kind: string, keys: seq<string>, values: seq<string>)
    requires Printable(kind, keys, values)
    ensures '\0' !in Body(kind, keys, values)
  {
    hide NoOuterSpace, IEquals, IsPunctOrSpace, Body;
    forall k | k in keys
      ensures '\0' !in k
    {
      var i :| 0 <= i < |keys| && keys[i] == k;
      assert Clean(keys[i]);
    }
    BodyHasNo(kind, keys, values, '\0');
  }

  // The right trim of the printer takes the final comma and nothing else.
  lemma EmittedIsBody(kind: string, keys: seq<string>, values: seq<string>)
    requires Printable(kind, keys, values)
    ensures Emitted(kind + " " + JoinAll(keys, values)) == Body(kind, keys, values) + "\n"
  {
    var body := Body(kind, keys, values);
    BodyHasNoNul(kind, keys, values);
    hide Clean, DistinctKeys, UpToNul;
    assert kind + " " + JoinAll(keys, values) == body + ",";
    var last := values[|values| - 1];
    assert body[|body| - 1] == last[|last| - 1];
    assert (body + ",")[..|body|] == body;
    assert TrimRightIf(body + ",", IsPunctOrSpace) == TrimRightIf(body, IsPunctOrSpace) == body;
  }

  // The tokens the parser finds in a printed message.
  function PrintedTokens(keys: seq<string>, values: seq<string>, suffix: string): seq<string>
    requires |keys| == |values| > 0
  {
    var n := |keys| - 1;
    Tokens(keys[..n], values[..n]) + [KeyValueText(keys[n], values[n] + suffix)]
  }

  lemma DistinctPrefix(keys: seq<string>, n: nat)
    requires DistinctKeys(keys) && n <= |keys|
    ensures DistinctKeys(keys[..n])
  {
    hide Clean, IEquals;
  }

  lemma HeadAndRest(kind: string, joined: string)
    requires kind != "" && ' ' !in kind && joined != "" && joined[0] != ' '
    ensures var text := kind + " " + joined;
            TypeOf(text) == kind && TokensOf(text) == Split(joined, ',')
  {
    hide Split;
    var text := kind + " " + joined;
    assert text[..|kind|] == kind && text[|kind|] == ' ' && text[|kind|..] == " " + joined;
    IndexOfUnique(text, ' ', |kind|);
    assert (" " + joined)[1..] == joined;
    assert SkipRun(" " + joined, ' ') == joined;
  }

  lemma BodyTokens(keys: seq<string>, values: seq<string>, suffix: string)
    requires |keys| == |values| > 0 && DistinctKeys(keys) && forall v | v in values :: Clean(v)
    requires forall c | c in suffix :: IsSpace(c)
    ensures var n := |keys| - 1;
            var joined := JoinAll(keys[..n], values[..n]) + KeyValueText(keys[n], values[n] + suffix);
            joined != "" && joined[0] != ' ' && Split(joined, ',') == PrintedTokens(keys, values, suffix)
  {
    var n := |keys| - 1;
    hide IEquals, Split, NoOuterSpace;
    var last := KeyValueText(keys[n], values[n] + suffix);
    assert values[n] in values;
    assert ',' !in last && last[0] != ' ';
    DistinctPrefix(keys, n);
    SplitJoin(keys[..n], values[..n], last);
    if n > 0 {
      JoinAllFront(keys[..n], values[..n]);
    }
  }

  lemma SuffixMoves(start: string, front: string, key: string, value: string, suffix: string)
    ensures start + front + KeyValueText(key, value) + suffix
            == start + (front + KeyValueText(key, value + suffix))
  {
    assert KeyValueText(key, value + suffix) == KeyValueText(key, value) + suffix;
  }

  lemma BodyParts(kind: string, keys: seq<string>, values: seq<string>, suffix: string)
    requires |keys| == |values| > 0 && DistinctKeys(keys) && forall v | v in values :: Clean(v)
    requires kind != "" && ' ' !in kind
    requires forall c | c in suffix :: IsSpace(c)
    ensures var text := Body(kind, keys, values) + suffix;
            TypeOf(text) == kind && TokensOf(text) == PrintedTokens(keys, values, suffix)
  {
    BodyTokens(keys, values, suffix);
    hide IsSpace, Split, Clean, DistinctKeys, JoinAll, TypeOf, TokensOf, PrintedTokens, KeyValueText;
    var n := |keys| - 1;
    var front := JoinAll(keys[..n], values[..n]);
    HeadAndRest(kind, front + KeyValueText(keys[n], values[n] + suffix));
    SuffixMoves(kind + " ", front, keys[n], values[n], suffix);
  }

  lemma PrintedToken(keys: seq<string>, values: seq<string>, suffix: string, j: nat)
    requires |keys| == |values| > j && DistinctKeys(keys) && forall v | v in values :: Clean(v)
    requires forall c | c in suffix :: IsSpace(c)
    ensures var tokens := PrintedTokens(keys, values, suffix);
            |tokens| == |keys| && Keyword(tokens[j]) == keys[j] && Value(tokens[j]) == values[j]
  {
    hide Split, Trim, NoOuterSpace, IsSpace;
    assert values[j] in values;
    CleanTokenParts(keys[j], values[j], suffix);
    CleanTokenParts(keys[j], values[j], "");
    assert values[j] + "" == values[j];
  }

  lemma TokenValue(tokens: seq<string>, keys: seq<string>, values: seq<string>, i: nat)
    requires |tokens| == |keys| == |values| > i
    requires forall j | 0 <= j < |keys| :: Keyword(tokens[j]) == keys[j] && Value(tokens[j]) == values[j]
    requires forall j | 0 <= j < |keys| && j != i :: !IEquals(keys[j], keys[i])
    requires keys[i] != ""
    ensures LastValue(tokens, keys[i]) == if values[i] == "" then None else Some(values[i])
  {
    hide Keyword, Value;
    LastWhereIs(tokens, t => Carries(t, keys[i]), if values[i] == "" then 0 else i + 1);
  }

  lemma IEqualsSymmetric(a: string, b: string)
    ensures IEquals(a, b) <==> IEquals(b, a)
  {
  }

  lemma PrintedValue(keys: seq<string>, values: seq<string>, suffix: string, i: nat)
    requires |keys| == |values| > i && DistinctKeys(keys) && forall v | v in values :: Clean(v)
    requires forall c | c in suffix :: IsSpace(c)
    ensures LastValue(PrintedTokens(keys, values, suffix), keys[i])
            == if values[i] == "" then None else Some(values[i])
  {
    hide Split, Clean, IsSpace, PrintedTokens, Keyword, Value, LastValue, IEquals;
    var tokens := PrintedTokens(keys, values, suffix);
    forall j | 0 <= j < |keys|
      ensures |tokens| == |keys| && Keyword(tokens[j]) == keys[j] && Value(tokens[j]) == values[j]
    {
      PrintedToken(keys, values, suffix, j);
    }
    forall j | 0 <= j < |keys| && j != i
      ensures !IEquals(keys[j], keys[i])
    {
      IEqualsSymmetric(keys[j], keys[i]);
    }
    PrintedToken(keys, values, suffix, i);
    TokenValue(tokens, keys, values, i);
  }

  // Any printable message comes back with its kind and the value of each of its keywords.
  lemma PrintedBack(kind: string, keys: seq<string>, values: seq<string>, suffix: string)
    requires Printable(kind, keys, values)
    requires forall c | c in suffix :: IsSpace(c)
    ensures Emitted(kind + " " + JoinAll(keys, values)) == Body(kind, keys, values) + "\n"
    ensures var text := Body(kind, keys, values) + suffix;
            UpToNul(text) == text && TypeOf(text) == kind
            && forall i | 0 <= i < |keys| ::
                 LastValue(TokensOf(text), keys[i]) == if values[i] == "" then None else Some(values[i])
  {
    EmittedIsBody(kind, keys, values);
    BodyHasNoNul(kind, keys, values);
    assert '\0' !in suffix;
    hide IsSpace, IsPunctOrSpace, Clean, DistinctKeys, Body, PrintedTokens, LastValue, Emitted, TypeOf, TokensOf,
         JoinAll;
    BodyParts(kind, keys, values, suffix);
    forall i | 0 <= i < |keys|
      ensures LastValue(TokensOf(Body(kind, keys, values) + suffix), keys[i])
              == if values[i] == "" then None else Some(values[i])
    {
      PrintedValue(keys, values, suffix, i);
    }
  }

  // ---- main results ----

  lemma DecimalIsClean(i: int)
    ensures Clean(ToDecimal(i)) && !IsPunctOrSpace(ToDecimal(i)[|ToDecimal(i)| - 1])
  {
    var s := ToDecimal(i);
    assert forall k | 0 <= k < |s| :: s[k] in s;
  }

  lemma InfoIsPrintable(p: FileInfoMsg)
    requires CleanInfo(p)
    ensures Printable("fileinfo", KEYS, InfoValues(p))
  {
    InfoKeysDistinct();
    DecimalIsClean(p.filesize);
    hide Clean, IEquals, IsPunctOrSpace, DistinctKeys;
  }

  function InfoBody(p: FileInfoMsg): string {
    Body("fileinfo", KEYS, InfoValues(p))
  }

  // The fields the parser returns for tokens that carry the values v under the nine keywords.
  lemma InfoFromValues(tokens: seq<string>, v: seq<string>)
    requires |v| == 9
    requires forall i | 0 <= i < 9 :: LastValue(tokens, KEYS[i]) == if v[i] == "" then None else Some(v[i])
    requires v[8] != ""
    ensures InfoOf(tokens) == FileInfoMsg("", v[0], v[1], v[2], v[3], v[4], v[5], v[6], v[7], Atoi(v[8]))
  {
    hide LastValue, Atoi;
    var k := KEYS;
    assert k[0] == "group_id" && k[1] == "unit_id" && k[2] == "cam_id" && k[3] == "grid_id";
    assert k[4] == "field_id" && k[5] == "tmobs" && k[6] == "subpath" && k[7] == "filename" && k[8] == "filesize";
  }

  // A clean fileinfo is read back from its line, with or without the newline.
  lemma InfoRoundTrip(p: FileInfoMsg, suffix: string)
    requires CleanInfo(p)
    requires forall c | c in suffix :: IsSpace(c)
    ensures InfoLine(p) == InfoBody(p) + "\n"
    ensures Resolve(InfoBody(p) + suffix) == Some(FileInfo(p))
  {
    hide IsSpace, IsPunctOrSpace, Clean, Printable, Body, LastValue, Emitted, UpToNul, TypeOf, TokensOf, InfoOf,
         JoinAll, Atoi, ToDecimal;
    InfoIsPrintable(p);
    PrintedBack("fileinfo", KEYS, InfoValues(p), suffix);
    AtoiInverse(p.filesize);
    InfoFromValues(TokensOf(InfoBody(p) + suffix), InfoValues(p));
  }

  function StatBody(p: FileStatMsg): string {
    Body("filestat", STATUS_KEYS, [ToDecimal(p.status)])
  }

  lemma StatIsPrintable(i: int)
    ensures Printable("filestat", STATUS_KEYS, [ToDecimal(i)])
  {
    DecimalIsClean(i);
    CleanKey("status");
    hide Clean, ToDecimal, IsPunctOrSpace, IEquals;
  }

  lemma StatKind()
    ensures IEquals("filestat", "filestat") && !IEquals("filestat", "fileinfo")
  {
    DifferAt("filestat", "fileinfo", 4);
  }

  lemma StatRoundTrip(p: FileStatMsg, suffix: string)
    requires CleanStat(p)
    requires forall c | c in suffix :: IsSpace(c)
    ensures StatLine(p) == StatBody(p) + "\n"
    ensures Resolve(StatBody(p) + suffix) == Some(FileStat(p))
  {
    StatKind();
    StatIsPrintable(p.status);
    hide IsSpace, IEquals, Printable, Body, LastValue, Emitted, UpToNul, TypeOf, TokensOf, JoinAll, Atoi, ToDecimal,
         InfoOf;
    PrintedBack("filestat", STATUS_KEYS, [ToDecimal(p.status)], suffix);
    AtoiInverse(p.status);
    assert STATUS_KEYS[0] == "status";
  }

  // The value of a token of a text without NUL is clean.
  lemma ParsedValueIsClean(text: string, key: string)
    requires '\0' !in text
    ensures Clean(TextField(TokensOf(text), key))
  {
    var tokens := TokensOf(text);
    var r := LastWhere(tokens, t => Carries(t, key));
    if r > 0 {
      var body := SkipRun(text[IndexOf(text, ' ')..], ' ');
      assert '\0' !in body;
      var kv := tokens[r - 1];
      SplitKeeps(body, ',', r - 1, '\0');
      assert ',' !in kv && '\0' !in kv;
      ValueIsClean(kv);
    }
  }

  lemma ValueIsClean(kv: string)
    requires ',' !in kv && '\0' !in kv
    ensures Clean(Value(kv))
  {
    hide Split, Trim;
    var t := Split(kv, '=');
    if |t| > 1 {
      SplitKeeps(kv, '=', 1, ',');
      SplitKeeps(kv, '=', 1, '\0');
      TrimKeeps(t[1], ',');
      TrimKeeps(t[1], '\0');
      TrimKeeps(t[1], '=');
    }
  }

  // Everything the parser produces lies in the domain that survives printing.
  lemma ParsedIsClean(rcvd: string)
    ensures Resolve(rcvd).Some? && Resolve(rcvd).value.FileInfo? ==> CleanInfo(Resolve(rcvd).value.info)
    ensures Resolve(rcvd).Some? && Resolve(rcvd).value.FileStat? ==> CleanStat(Resolve(rcvd).value.stat)
  {
    hide Clean, TextField, TypeOf, TokensOf, LastValue, Atoi;
    forall key: string
      ensures Clean(TextField(TokensOf(UpToNul(rcvd)), key))
    {
      ParsedValueIsClean(UpToNul(rcvd), key);
    }
  }

  // A fileinfo survives printing and parsing if and only if it is clean.
  lemma InfoSurvives(p: FileInfoMsg)
    ensures Resolve(InfoLine(p)) == Some(FileInfo(p)) <==> CleanInfo(p)
  {
    hide Resolve, InfoLine, InfoBody, CleanInfo;
    ParsedIsClean(InfoLine(p));
    if CleanInfo(p) {
      InfoRoundTrip(p, "\n");
    }
  }

  // A filestat survives printing and parsing if and only if its status is an int
  // and the fields that are not printed are empty.
  lemma StatSurvives(p: FileStatMsg)
    ensures Resolve(StatLine(p)) == Some(FileStat(p)) <==> CleanStat(p)
  {
    hide Resolve, StatLine, StatBody, CleanStat;
    ParsedIsClean(StatLine(p));
    if CleanStat(p) {
      StatRoundTrip(p, "\n");
    }
  }

  // Parse, print, parse: whatever was received, the second reading equals the first.
  lemma ParsePrintParse(rcvd: string)
    requires Resolve(rcvd).Some?
    ensures Resolve(rcvd).value.FileInfo? ==> Resolve(InfoLine(Resolve(rcvd).value.info)) == Resolve(rcvd)
    ensures Resolve(rcvd).value.FileStat? ==> Resolve(StatLine(Resolve(rcvd).value.stat)) == Resolve(rcvd)
  {
    hide Resolve, InfoLine, StatLine, CleanInfo, CleanStat;
    ParsedIsClean(rcvd);
    var m := Resolve(rcvd).value;
    if m.FileInfo? {
      InfoSurvives(m.info);
    } else if m.FileStat? {
      StatSurvives(m.stat);
    }
  }

  // ---- what the order and the number of tokens change ----

  lemma {:induction false} LastValueAppend(a: seq<string>, b: seq<string>, key: string)
    ensures LastValue(a + b, key) == if LastValue(b, key).Some? then LastValue(b, key) else LastValue(a, key)
  {
    hide Carries, Value;
    var f := (t: string) => Carries(t, key);
    var ra, rb := LastWhere(a, f), LastWhere(b, f);
    LastWhereIs(a + b, f, if rb > 0 then |a| + rb else ra);
  }

  // A malformed token, or one with an unknown keyword, changes nothing wherever it stands.
  lemma UnknownTokenIgnored(a: seq<string>, t: string, b: seq<string>)
    requires forall key | key in KEYS :: !Carries(t, key)
    ensures InfoOf(a + [t] + b) == InfoOf(a + b)
  {
    hide Carries, LastValue, Atoi;
    forall i | 0 <= i < |KEYS|
      ensures LastValue(a + [t] + b, KEYS[i]) == LastValue(a + b, KEYS[i])
    {
      assert KEYS[i] in KEYS;
      LastValueAppend(a + [t], b, KEYS[i]);
      LastValueAppend(a, [t], KEYS[i]);
      LastValueAppend(a, b, KEYS[i]);
      LastWhereIs([t], x => Carries(x, KEYS[i]), 0);
      LastValueOfOne(t, KEYS[i]);
    }
    SameFields(a + [t] + b, a + b);
  }

  lemma LastValueOfOne(t: string, key: string)
    requires !Carries(t, key)
    ensures LastValue([t], key) == None
  {
    hide Carries, Value;
    LastWhereIs([t], x => Carries(x, key), 0);
  }

  lemma SameFields(ts: seq<string>, us: seq<string>)
    requires forall i | 0 <= i < |KEYS| :: LastValue(ts, KEYS[i]) == LastValue(us, KEYS[i])
    ensures InfoOf(ts) == InfoOf(us)
  {
    hide LastValue, Atoi;
    var k := KEYS;
    assert k[0] == "group_id" && k[1] == "unit_id" && k[2] == "cam_id" && k[3] == "grid_id";
    assert k[4] == "field_id" && k[5] == "tmobs" && k[6] == "subpath" && k[7] == "filename" && k[8] == "filesize";
  }

  // Tokens with the same keyword agree on the value.
  ghost predicate Consistent(ts: seq<string>) {
    forall t, u | t in ts && u in ts && WellFormed(t) && WellFormed(u) && IEquals(Keyword(t), Keyword(u)) ::
      Value(t) == Value(u)
  }

  lemma LastValueMember(ts: seq<string>, key: string)
    ensures LastValue(ts, key).Some? ==>
              exists t :: t in ts && Carries(t, key) && LastValue(ts, key) == Some(Value(t))
    ensures LastValue(ts, key).None? ==> forall t | t in ts :: !Carries(t, key)
  {
    hide Carries, Value;
    var r := LastWhere(ts, t => Carries(t, key));
    if r > 0 {
      assert ts[r - 1] in ts;
    }
  }

  // Without conflicting tokens, only the set of tokens matters: neither their order nor repetition.
  lemma OrderIsIrrelevant(ts: seq<string>, us: seq<string>)
    requires Consistent(ts) && forall t :: t in ts <==> t in us
    ensures InfoOf(ts) == InfoOf(us)
  {
    hide LastValue, WellFormed, Keyword, Value, Atoi;
    forall i | 0 <= i < |KEYS|
      ensures LastValue(ts, KEYS[i]) == LastValue(us, KEYS[i])
    {
      LastValueMember(ts, KEYS[i]);
      LastValueMember(us, KEYS[i]);
    }
    SameFields(ts, us);
  }
}
