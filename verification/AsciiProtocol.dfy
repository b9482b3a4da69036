// The printer and the parser as they run: a line is built by appending to a string and
// left in one of ten slots of a buffer; a parser goes through the tokens and assigns fields.
module AsciiProtocol {
  import opened Options
  import opened CText
  import opened Protocol

  const SLOT := 1024
  const SLOTS := 10

  // Where the result of call number k of output_compacted begins.
  function SlotOf(k: nat): nat {
    k % SLOTS * SLOT
  }

  // Fewer than ten calls apart, results never overlap; the tenth call reuses the slot.
  lemma SlotsApart(j: nat, k: nat)
    ensures j < k < j + SLOTS ==> SlotOf(j) + SLOT <= SlotOf(k) || SlotOf(k) + SLOT <= SlotOf(j)
    ensures SlotOf(j) == SlotOf(k) <==> (k - j) % SLOTS == 0
  {
    assert j % SLOTS == k % SLOTS <==> (k - j) % SLOTS == 0;
  }

  lemma SlotsAround(m: nat)
    ensures SlotOf(m) == m % SLOTS * SLOT && SlotOf(m) + SLOT <= SLOT * SLOTS
    ensures (m + 1) % SLOTS == if m % SLOTS + 1 == SLOTS then 0 else m % SLOTS + 1
    ensures forall k: nat | m - SLOTS < k < m :: SlotOf(k) + SLOT <= SlotOf(m) || SlotOf(m) + SLOT <= SlotOf(k)
  {
    forall k: nat | m - SLOTS < k < m
      ensures SlotOf(k) + SLOT <= SlotOf(m) || SlotOf(m) + SLOT <= SlotOf(k)
    {
      SlotsApart(k, m);
    }
  }

  lemma JoinAllOneMore(keys: seq<string>, values: seq<string>, key: string, value: string)
    requires |keys| == |values|
    ensures JoinAll(keys + [key], values + [value]) == JoinAll(keys, values) + KeyValueText(key, value) + ","
  {
    assert (keys + [key])[..|keys|] == keys && (values + [value])[..|values|] == values;
  }

  lemma NoTokens()
    ensures forall key :: LastValue([], key) == None
  {
  }

  lemma NoInfo()
    ensures InfoOf([]) == FileInfoMsg("", "", "", "", "", "", "", "", "", 0)
  {
  }

  // The part of a C string before its NUL.
  predicate IsText(rcvd: string, text: string) {
    && |text| <= |rcvd| && (|text| < |rcvd| ==> rcvd[|text|] == '\0')
    && forall i | 0 <= i < |text| :: text[i] == rcvd[i] && rcvd[i] != '\0'
  }

  lemma TextChar(rcvd: string, text: string, i: nat)
    requires IsText(rcvd, text) && i <= |text|
    ensures i < |rcvd| && rcvd[i] != '\0' <==> i < |text|
    ensures i < |text| ==> i < |rcvd| && text[i] == rcvd[i]
  {
  }

  lemma TextEnds(rcvd: string)
    ensures IsText(rcvd, UpToNul(rcvd))
  {
    var m := IndexOf(rcvd, '\0');
    forall i | 0 <= i < m
      ensures rcvd[i] != '\0'
    {
      assert rcvd[i] in rcvd[..m];
    }
  }

  // From start to i there are only spaces.
  predicate Skips(text: string, start: nat, i: nat)
    requires start <= |text| && i <= |text|
  {
    SkipRun(text[start..], ' ') == SkipRun(text[i..], ' ')
  }

  lemma SkipStart(text: string, start: nat)
    requires start <= |text|
    ensures Skips(text, start, start)
  {
  }

  lemma SkipOne(text: string, start: nat, i: nat)
    requires start <= i < |text| && text[i] == ' ' && Skips(text, start, i)
    ensures Skips(text, start, i + 1)
  {
    assert text[i..][1..] == text[i + 1..];
  }

  lemma SkipNone(text: string, start: nat, i: nat)
    requires start <= i <= |text| && (i < |text| ==> text[i] != ' ') && Skips(text, start, i)
    ensures SkipRun(text[start..], ' ') == text[i..]
  {
  }

  lemma RestOfText(rcvd: string, i: nat)
    requires i <= |UpToNul(rcvd)|
    ensures UpToNul(rcvd[i..]) == UpToNul(rcvd)[i..]
  {
    var m := IndexOf(rcvd, '\0');
    assert rcvd[i..][..m - i] == rcvd[..m][i..];
    hide IndexOf;
    IndexOfUnique(rcvd[i..], '\0', m - i);
  }

  // ---- fields by number ----

  function FieldFrom(keyword: string, i: nat): (f: nat)
    requires i <= |KEYS|
    ensures i <= f <= |KEYS|
    ensures f < |KEYS| ==> IEquals(keyword, KEYS[f])
    ensures forall j | i <= j < f :: !IEquals(keyword, KEYS[j])
    decreases |KEYS| - i
  {
    if i == |KEYS| || IEquals(keyword, KEYS[i]) then i else FieldFrom(keyword, i + 1)
  }

  function Assign(p: FileInfoMsg, f: nat, value: string): FileInfoMsg {
    match f
    case 0 => p.(gid := value)
    case 1 => p.(uid := value)
    case 2 => p.(cid := value)
    case 3 => p.(grid := value)
    case 4 => p.(field := value)
    case 5 => p.(tmobs := value)
    case 6 => p.(subpath := value)
    case 7 => p.(filename := value)
    case 8 => p.(filesize := Atoi(value))
    case _ => p
  }

  lemma {:induction false} IEqualsBoth(a: string, b: string, c: string)
    requires IEquals(a, b) && IEquals(a, c)
    ensures IEquals(b, c)
  {
  }

  lemma OneField(keyword: string, f: nat, i: nat)
    requires f < |KEYS| && i < |KEYS| && IEquals(keyword, KEYS[f])
    ensures IEquals(keyword, KEYS[i]) <==> i == f
  {
    InfoKeysDistinct();
    if IEquals(keyword, KEYS[i]) {
      IEqualsBoth(keyword, KEYS[f], KEYS[i]);
      IEqualsSymmetric(KEYS[f], KEYS[i]);
    }
    hide IEquals, Clean;
  }

  lemma LastValueOneMore(ts: seq<string>, t: string, key: string)
    ensures LastValue(ts + [t], key) == if Carries(t, key) then Some(Value(t)) else LastValue(ts, key)
  {
    hide Carries, Value;
    LastValueAppend(ts, [t], key);
    LastValueOfToken(t, key);
  }

  lemma LastValueOfToken(t: string, key: string)
    ensures LastValue([t], key) == if Carries(t, key) then Some(Value(t)) else None
  {
    hide Carries, Value;
    Search.LastWhereIs([t], x => Carries(x, key), if Carries(t, key) then 1 else 0);
  }

  // One more token: what the body of the loop has to do to keep up with the specification.
  lemma InfoOneMore(ts: seq<string>, t: string)
    ensures InfoOf(ts + [t])
            == if WellFormed(t) then Assign(InfoOf(ts), FieldFrom(Keyword(t), 0), Value(t)) else InfoOf(ts)
  {
    hide WellFormed, Keyword, Value, LastValue, IEquals, FieldFrom, Atoi;
    var f := FieldFrom(Keyword(t), 0);
    forall i | 0 <= i < |KEYS|
      ensures LastValue(ts + [t], KEYS[i]) == if WellFormed(t) && i == f then Some(Value(t)) else LastValue(ts, KEYS[i])
    {
      LastValueOneMore(ts, t, KEYS[i]);
      if f < |KEYS| {
        OneField(Keyword(t), f, i);
      }
    }
    var k := KEYS;
    assert k[0] == "group_id" && k[1] == "unit_id" && k[2] == "cam_id" && k[3] == "grid_id";
    assert k[4] == "field_id" && k[5] == "tmobs" && k[6] == "subpath" && k[7] == "filename" && k[8] == "filesize";
  }

  class AsciiProtocol {
    var ibuf_: int
    const buff_: array<char>

    ghost var printed: seq<string>     // the result of every call so far

    // The buffer holds text, followed by a NUL, from position at on.
    ghost predicate Holds(at: nat, text: string)
      reads buff_
    {
      && |text| < SLOT && at + SLOT <= buff_.Length
      && buff_[at..at + |text|] == text && buff_[at + |text|] == '\0'
    }

    // The last ten results are intact.
    ghost predicate Valid()
      reads this, buff_
    {
      && buff_.Length == SLOT * SLOTS
      && ibuf_ == |printed| % SLOTS
      && forall k | 0 <= k < |printed| && |printed| - SLOTS <= k :: Holds(SlotOf(k), printed[k])
    }

    constructor ()
      ensures Valid() && printed == [] && fresh(buff_)
    {
      ibuf_ := 0;
      buff_ := new char[SLOT * SLOTS];
      printed := [];
    }

    // Also returns the trimmed output.
    method OutputCompacted(output: string) returns (at: nat, n: nat, trimmed: string)
      requires Valid() && |Emitted(output)| < SLOT
      modifies this`ibuf_, this`printed, buff_
      ensures Valid() && printed == old(printed) + [Emitted(output)]
      ensures at == SlotOf(|old(printed)|) && n == |Emitted(output)| && Holds(at, Emitted(output))
      ensures trimmed <= output && (trimmed == "" || !IsPunctOrSpace(trimmed[|trimmed| - 1]))
    {
      trimmed := TrimRightIf(output, IsPunctOrSpace);
      at, n := NextSlot(UpToNul(trimmed) + "\n");
    }

    // Prints text, which ends in a newline, into the next slot.
    method NextSlot(text: string) returns (at: nat, n: nat)
      requires Valid() && |text| < SLOT
      modifies this`ibuf_, this`printed, buff_
      ensures Valid() && printed == old(printed) + [text]
      ensures at == SlotOf(|old(printed)|) && n == |text| && Holds(at, text)
    {
      at := ibuf_ * SLOT;
      SlotsAround(|printed|);
      hide SlotOf, Holds;
      n := Print(at, text);
      ibuf_ := ibuf_ + 1;
      if ibuf_ == SLOTS {
        ibuf_ := 0;
      }
      printed := printed + [text];
    }

    // sprintf into the buffer.
    method Print(at: nat, text: string) returns (n: nat)
      requires |text| < SLOT && at + SLOT <= buff_.Length
      modifies buff_
      ensures n == |text| && Holds(at, text)
      ensures forall j: nat, t | old(Holds(j, t)) && (j + SLOT <= at || at + SLOT <= j) :: Holds(j, t)
    {
      forall i | 0 <= i < |text| {
        buff_[at + i] := text[i];
      }
      buff_[at + |text|] := '\0';
      n := |text|;
      assert buff_[at..at + |text|] == text;
      forall j: nat, t | old(Holds(j, t)) && (j + SLOT <= at || at + SLOT <= j)
        ensures Holds(j, t)
      {
        assert buff_[j..j + |t|] == old(buff_[j..j + |t|]);
      }
    }

    // The key and the value are number k of those that make up the line.
    method JoinKv(output: string, keyword: string, value: string,
                  ghost start: string, ghost keys: seq<string>, ghost values: seq<string>, ghost k: nat)
      returns (r: string)
      requires k < |keys| == |values| && keyword == keys[k] && value == values[k]
      requires output == start + JoinAll(keys[..k], values[..k])
      ensures r == output + keyword + "=" + value + ","
      ensures r == start + JoinAll(keys[..k + 1], values[..k + 1])
    {
      assert keys[..k + 1] == keys[..k] + [keyword] && values[..k + 1] == values[..k] + [value];
      JoinAllOneMore(keys[..k], values[..k], keyword, value);
      r := output + (keyword + "=" + value + ",");
    }

    method StatOutput(p: FileStatMsg) returns (output: string)
      ensures output == StatText(p)
    {
      ghost var k, v := STATUS_KEYS, [ToDecimal(p.status)];
      output := "filestat" + " ";
      ghost var start := output;
      hide ToDecimal;
      output := JoinKv(output, "status", ToDecimal(p.status), start, k, v, 0);
      assert k[..1] == k && v[..1] == v;
    }

    method CompactFileStat(proto: Option<FileStatMsg>) returns (at: Option<nat>, n: nat)
      requires Valid() && (proto.Some? ==> |StatLine(proto.value)| < SLOT)
      modifies this`ibuf_, this`printed, buff_
      ensures Valid()
      ensures proto == None ==> at == None && printed == old(printed)
      ensures proto.Some? ==>
                printed == old(printed) + [StatLine(proto.value)] && n == |StatLine(proto.value)|
                && at == Some(SlotOf(|old(printed)|)) && Holds(at.value, StatLine(proto.value))
    {
      if proto == None {
        return None, 0;
      }
      var output := StatOutput(proto.value);
      var k, m, _ := OutputCompacted(output);
      return Some(k), m;
    }

    method CompactFileInfo(proto: Option<FileInfoMsg>) returns (at: Option<nat>, n: nat)
      requires Valid() && (proto.Some? ==> |InfoLine(proto.value)| < SLOT)
      modifies this`ibuf_, this`printed, buff_
      ensures Valid()
      ensures proto == None ==> at == None && printed == old(printed)
      ensures proto.Some? ==>
                printed == old(printed) + [InfoLine(proto.value)] && n == |InfoLine(proto.value)|
                && at == Some(SlotOf(|old(printed)|)) && Holds(at.value, InfoLine(proto.value))
    {
      if proto == None {
        return None, 0;
      }
      var output := InfoOutput(proto.value, KEYS, InfoValues(proto.value));
      var k, m, _ := OutputCompacted(output);
      return Some(k), m;
    }

    method InfoOutput(p: FileInfoMsg, ghost k: seq<string>, ghost v: seq<string>) returns (output: string)
      requires |k| == |v| == 9 && v == InfoValues(p)
      requires k[0] == "group_id" && k[1] == "unit_id" && k[2] == "cam_id" && k[3] == "grid_id" && k[4] == "field_id"
      requires k[5] == "tmobs" && k[6] == "subpath" && k[7] == "filename" && k[8] == "filesize"
      ensures output == "fileinfo" + " " + JoinAll(k, v)
    {
      ghost var start := "fileinfo" + " ";
      output := InfoStart(p, k, v);
      hide JoinAll, ToDecimal;
      output := JoinKv(output, "subpath", p.subpath, start, k, v, 6);
      output := JoinKv(output, "filename", p.filename, start, k, v, 7);
      output := JoinKv(output, "filesize", ToDecimal(p.filesize), start, k, v, 8);
      assert k[..9] == k && v[..9] == v;
    }

    // The fields that place a file.
    method InfoStart(p: FileInfoMsg, ghost k: seq<string>, ghost v: seq<string>) returns (output: string)
      requires |k| == |v| == 9 && v == InfoValues(p)
      requires k[0] == "group_id" && k[1] == "unit_id" && k[2] == "cam_id" && k[3] == "grid_id" && k[4] == "field_id"
      requires k[5] == "tmobs" && k[6] == "subpath" && k[7] == "filename" && k[8] == "filesize"
      ensures output == "fileinfo" + " " + JoinAll(k[..6], v[..6])
    {
      output := "fileinfo" + " ";
      ghost var start := output;
      assert output == start + JoinAll(k[..0], v[..0]);
      hide JoinAll, ToDecimal;
      output := JoinKv(output, "group_id", p.gid, start, k, v, 0);
      output := JoinKv(output, "unit_id", p.uid, start, k, v, 1);
      output := JoinKv(output, "cam_id", p.cid, start, k, v, 2);
      output := JoinKv(output, "grid_id", p.grid, start, k, v, 3);
      output := JoinKv(output, "field_id", p.field, start, k, v, 4);
      output := JoinKv(output, "tmobs", p.tmobs, start, k, v, 5);
    }

    // ---- parsing ----

    method ResolveKv(kv: string) returns (ok: bool, keyword: string, value: string)
      ensures keyword == Keyword(kv) && value == Value(kv)
      ensures ok <==> WellFormed(kv)
    {
      var tokens := Split(kv, '=');
      keyword, value := "", "";
      if tokens != [] {
        keyword := Trim(tokens[0]);
        tokens := tokens[1..];
      }
      if tokens != [] {
        value := Trim(tokens[0]);
      }
      ok := !(keyword == "" || value == "");
    }

    // The chain of comparisons in resolve_fileinfo.
    method AssignField(p: FileInfoMsg, keyword: string, value: string) returns (r: FileInfoMsg)
      ensures r == Assign(p, FieldFrom(keyword, 0), value)
    {
      ghost var k := KEYS;
      assert k[0] == "group_id" && k[1] == "unit_id" && k[2] == "cam_id" && k[3] == "grid_id";
      assert k[4] == "field_id" && k[5] == "tmobs" && k[6] == "subpath" && k[7] == "filename" && k[8] == "filesize";
      ghost var f := FieldFrom(keyword, 0);
      hide IEquals, FieldFrom, Atoi;
      r := p;
      if IEquals(keyword, "group_id") {
        r := r.(gid := value);
      } else if IEquals(keyword, "unit_id") {
        r := r.(uid := value);
      } else if IEquals(keyword, "cam_id") {
        r := r.(cid := value);
      } else if IEquals(keyword, "grid_id") {
        r := r.(grid := value);
      } else if IEquals(keyword, "field_id") {
        r := r.(field := value);
      } else if IEquals(keyword, "tmobs") {
        r := r.(tmobs := value);
      } else if IEquals(keyword, "subpath") {
        r := r.(subpath := value);
      } else if IEquals(keyword, "filename") {
        r := r.(filename := value);
      } else if IEquals(keyword, "filesize") {
        r := r.(filesize := Atoi(value));
      }
    }

    method ResolveFileInfo(tokens: seq<string>) returns (proto: FileInfoMsg)
      ensures proto == InfoOf(tokens)
    {
      proto := FileInfoMsg("", "", "", "", "", "", "", "", "", 0);
      hide Keyword, Value, WellFormed, IEquals, LastValue, InfoOf, Assign;
      NoInfo();
      for k := 0 to |tokens|
        invariant proto == InfoOf(tokens[..k])
      {
        assert tokens[..k + 1] == tokens[..k] + [tokens[k]];
        InfoOneMore(tokens[..k], tokens[k]);
        var ok, keyword, value := ResolveKv(tokens[k]);
        if ok {
          proto := AssignField(proto, keyword, value);
        }
      }
      assert tokens[..|tokens|] == tokens;
    }

    method ResolveFileStat(tokens: seq<string>) returns (proto: FileStatMsg)
      ensures proto == StatOf(tokens)
    {
      proto := FileStatMsg("", "", "", "", 0);
      hide Keyword, Value, IEquals, LastValue, Atoi;
      NoTokens();
      for k := 0 to |tokens|
        invariant proto == StatOf(tokens[..k])
      {
        assert tokens[..k + 1] == tokens[..k] + [tokens[k]];
        LastValueOneMore(tokens[..k], tokens[k], "status");
        var ok, keyword, value := ResolveKv(tokens[k]);
        if ok && IEquals(keyword, "status") {
          proto := proto.(status := Atoi(value));
        }
      }
      assert tokens[..|tokens|] == tokens;
    }

    method Resolve(rcvd: string) returns (proto: Option<Message>)
      ensures proto == Protocol.Resolve(rcvd)
    {
      var kind, tokens := Scan(rcvd);
      hide InfoOf, StatOf, TokensOf, TypeOf, UpToNul, IEquals;
      proto := None;
      if kind != "" {
        var ch := kind[0];
        if ch == 'c' {
          if IEquals(kind, "cooler") {
            proto := Some(Cooler);
          }
        } else if ch == 'f' {
          if IEquals(kind, "fileinfo") {
            var info := ResolveFileInfo(tokens);
            proto := Some(FileInfo(info));
          } else if IEquals(kind, "filestat") {
            var stat := ResolveFileStat(tokens);
            proto := Some(FileStat(stat));
          }
        } else if ch == 'v' {
          if IEquals(kind, "vacuum") {
            proto := Some(Vacuum);
          }
        }
      }
    }

    // The type, then the tokens after the spaces.
    method Scan(rcvd: string) returns (kind: string, tokens: seq<string>)
      ensures kind == TypeOf(UpToNul(rcvd)) && tokens == TokensOf(UpToNul(rcvd))
    {
      var i;
      kind, i := ScanType(rcvd);
      tokens := ScanTokens(rcvd, i);
    }

    method ScanType(rcvd: string) returns (kind: string, i: nat)
      ensures i == IndexOf(UpToNul(rcvd), ' ') && kind == TypeOf(UpToNul(rcvd))
    {
      ghost var text := UpToNul(rcvd);
      TextEnds(rcvd);
      hide IndexOf, UpToNul;
      i, kind := 0, "";
      while i < |rcvd| && rcvd[i] != '\0' && rcvd[i] != ' '
        invariant 0 <= i <= |text| && kind == text[..i] && ' ' !in kind
      {
        kind := kind + [rcvd[i]];
        i := i + 1;
      }
      IndexOfUnique(text, ' ', i);
    }

    method ScanTokens(rcvd: string, start: nat) returns (tokens: seq<string>)
      requires start == IndexOf(UpToNul(rcvd), ' ')
      ensures tokens == TokensOf(UpToNul(rcvd))
    {
      var i := SkipSpaces(rcvd, start);
      TextEnds(rcvd);
      hide IndexOf, UpToNul, Split, SkipRun;
      tokens := [];
      if i < |rcvd| && rcvd[i] != '\0' {
        RestOfText(rcvd, i);
        tokens := Split(UpToNul(rcvd[i..]), ',');
      }
    }

    method SkipSpaces(rcvd: string, start: nat) returns (i: nat)
      requires start <= |UpToNul(rcvd)|
      ensures start <= i <= |UpToNul(rcvd)| && SkipRun(UpToNul(rcvd)[start..], ' ') == UpToNul(rcvd)[i..]
    {
      TextEnds(rcvd);
      i := SpacesEnd(rcvd, start, UpToNul(rcvd));
    }

    method SpacesEnd(rcvd: string, start: nat, ghost text: string) returns (i: nat)
      requires IsText(rcvd, text) && start <= |text|
      ensures start <= i <= |text| && SkipRun(text[start..], ' ') == text[i..]
    {
      SkipStart(text, start);
      TextChar(rcvd, text, start);
      hide Skips, SkipRun, IsText;
      i := start;
      while i < |rcvd| && rcvd[i] != '\0' && rcvd[i] == ' '
        invariant start <= i <= |text| && Skips(text, start, i)
        invariant i < |rcvd| && rcvd[i] != '\0' <==> i < |text|
        invariant i < |text| && i < |rcvd| ==> text[i] == rcvd[i]
      {
        SkipOne(text, start, i);
        i := i + 1;
        TextChar(rcvd, text, i);
      }
      SkipNone(text, start, i);
    }
  }
}
