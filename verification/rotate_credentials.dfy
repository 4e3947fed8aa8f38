/** `update_env_file`: rewriting the assignments of a .env file. The file
    is given as its lines, as `readlines` returns them (every line but the
    last ends with its line feed, and so does the last one when the file
    ends with a line feed), or as missing. The result is the list of
    strings handed to `writelines`, which writes them back to back; the
    file text is their concatenation. Key generation, backups and console
    output are not part of this model. */
module RotateCredentials {
  import opened Common

  /** The updates, in the dict's order: (key, new value). */
  type Updates = seq<(string, string)>

  /** A dict has each key once. */
  predicate UniqueKeys(updates: Updates) {
    forall i, j :: 0 <= i < j < |updates| ==> updates[i].0 != updates[j].0
  }

  /** The line written for a key. */
  function Assignment(key: string, value: string): string {
    key + "=" + value + "\n"
  }

  /** Blank lines and comments are copied as they are. */
  predicate Skipped(line: string) {
    Strip(line) == [] || StartsWith(Strip(line), "#")
  }

  /** The first update whose "KEY=" starts the stripped line. */
  function FirstMatch(stripped: string, updates: Updates): (r: Option<nat>)
    ensures r.Some? ==> r.value < |updates| && StartsWith(stripped, updates[r.value].0 + "=")
    ensures r.Some? ==> forall j :: 0 <= j < r.value ==> !StartsWith(stripped, updates[j].0 + "=")
    ensures r.None? ==> forall j :: 0 <= j < |updates| ==> !StartsWith(stripped, updates[j].0 + "=")
  {
    if updates == [] then None
    else if StartsWith(stripped, updates[0].0 + "=") then Some(0)
    else match FirstMatch(stripped, updates[1..])
         case None => None
         case Some(j) => Some(j + 1)
  }

  /** The update that rewrites a line, if any. */
  function LineMatch(line: string, updates: Updates): (r: Option<nat>)
    ensures r.Some? ==> r.value < |updates|
  {
    if Skipped(line) then None else FirstMatch(Strip(line), updates)
  }

  /** A line after the rewrite. */
  function RewriteLine(line: string, updates: Updates): string {
    match LineMatch(line, updates)
    case None => line
    case Some(j) => Assignment(updates[j].0, updates[j].1)
  }

  /** The keys some line was rewritten for. */
  function MatchedKeys(lines: seq<string>, updates: Updates): set<string>
    decreases |lines|
  {
    if lines == [] then {}
    else MatchedKeys(lines[..|lines| - 1], updates) + KeyOf(lines[|lines| - 1], updates)
  }

  /** The key a line is rewritten for, if any. */
  function KeyOf(line: string, updates: Updates): set<string> {
    match LineMatch(line, updates)
    case None => {}
    case Some(j) => {updates[j].0}
  }

  /** A matched key comes from some line rewritten for it. */
  lemma {:induction false} MatchedKeyLine(lines: seq<string>, updates: Updates, k: string) returns (i: nat, j: nat)
    requires k in MatchedKeys(lines, updates)
    ensures i < |lines| && j < |updates| && LineMatch(lines[i], updates) == Some(j) && updates[j].0 == k
    decreases |lines|
  {
    var last := |lines| - 1;
    if k in KeyOf(lines[last], updates) {
      i, j := last, LineMatch(lines[last], updates).value;
    } else {
      i, j := MatchedKeyLine(lines[..last], updates, k);
      assert lines[..last][i] == lines[i];
    }
  }

  /** The assignments appended at the end: one for each key not yet
      written, in the updates' order. */
  function Appended(updates: Updates, written: set<string>): seq<string>
    decreases |updates|
  {
    if updates == [] then []
    else if updates[0].0 in written then Appended(updates[1..], written)
    else [Assignment(updates[0].0, updates[0].1)] + Appended(updates[1..], written + {updates[0].0})
  }

  /** Every line after the rewrite, in order. */
  function Rewritten(lines: seq<string>, updates: Updates): (r: seq<string>)
    ensures |r| == |lines|
    decreases |lines|
  {
    if lines == [] then []
    else Rewritten(lines[..|lines| - 1], updates) + [RewriteLine(lines[|lines| - 1], updates)]
  }

  lemma {:induction false} RewrittenAt(lines: seq<string>, updates: Updates, i: nat)
    requires i < |lines|
    ensures Rewritten(lines, updates)[i] == RewriteLine(lines[i], updates)
    decreases |lines|
  {
    var last := |lines| - 1;
    var init := Rewritten(lines[..last], updates);
    assert Rewritten(lines, updates) == init + [RewriteLine(lines[last], updates)];
    if i < last {
      RewrittenAt(lines[..last], updates, i);
      assert lines[..last][i] == lines[i];
    }
  }

  lemma RewrittenStep(lines: seq<string>, i: nat, updates: Updates)
    requires i < |lines|
    ensures Rewritten(lines[..i + 1], updates) == Rewritten(lines[..i], updates) + [RewriteLine(lines[i], updates)]
  {
    var a := lines[..i + 1];
    assert a[..i] == lines[..i] && a[i] == lines[i];
  }

  /** The lines written back. */
  function UpdatedLines(lines: seq<string>, updates: Updates): seq<string> {
    Rewritten(lines, updates) +
    Appended(updates, MatchedKeys(lines, updates))
  }

  /** `update_env_file(file_path, updates)`: False and nothing written when
      the file is missing; otherwise True and the rewritten lines. */
  method UpdateEnvFile(file: Option<seq<string>>, updates: Updates) returns (ok: bool, written: Option<seq<string>>)
    ensures file.None? ==> !ok && written.None?
    ensures file.Some? ==> ok && written == Some(UpdatedLines(file.value, updates))
  {
    if file.None? {
      return false, None;
    }
    var rewritten, keysUpdated := RewriteLines(file.value, updates);
    var all := AppendMissing(rewritten, updates, keysUpdated);
    return true, Some(all);
  }

  /** The loop over the file's lines: each line rewritten, and the set of
      keys written so far. */
  method RewriteLines(lines: seq<string>, updates: Updates) returns (updatedLines: seq<string>, keysUpdated: set<string>)
    ensures updatedLines == Rewritten(lines, updates)
    ensures keysUpdated == MatchedKeys(lines, updates)
  {
    updatedLines := [];
    keysUpdated := {};
    var i := 0;
    while i < |lines|
      invariant 0 <= i <= |lines|
      invariant updatedLines == Rewritten(lines[..i], updates)
      invariant keysUpdated == MatchedKeys(lines[..i], updates)
    {
      var line, matched := RewriteOne(lines[i], updates);
      updatedLines := updatedLines + [line];
      if matched.Some? {
        keysUpdated := keysUpdated + {matched.value};
      }
      MatchedKeysStep(lines, i, updates);
      RewrittenStep(lines, i, updates);
      i := i + 1;
    }
    assert lines[..i] == lines;
  }

  /** One line: its rewrite, and the key it was rewritten for. */
  method RewriteOne(line: string, updates: Updates) returns (out: string, matched: Option<string>)
    ensures out == RewriteLine(line, updates)
    ensures matched.None? <==> KeyOf(line, updates) == {}
    ensures matched.Some? ==> KeyOf(line, updates) == {matched.value}
  {
    var stripped := Strip(line);
    var key, found := MatchLine(line, stripped, updates);
    if found {
      out := Assignment(key, ValueOf(updates, LineMatch(line, updates).value));
      matched := Some(key);
    } else {
      out := line;
      matched := None;
    }
  }

  /** The loop over the updates: an assignment for each key not yet
      written. */
  method AppendMissing(lines: seq<string>, updates: Updates, written: set<string>) returns (out: seq<string>)
    ensures out == lines + Appended(updates, written)
  {
    out := lines;
    var keysUpdated := written;
    var j := 0;
    assert updates[j..] == updates;
    while j < |updates|
      invariant 0 <= j <= |updates|
      invariant out + Appended(updates[j..], keysUpdated) == lines + Appended(updates, written)
    {
      var (key, value) := updates[j];
      assert updates[j..][1..] == updates[j + 1..];
      if key !in keysUpdated {
        out := out + [Assignment(key, value)];
        keysUpdated := keysUpdated + {key};
      }
      j := j + 1;
    }
    assert updates[j..] == [];
    assert out + [] == out;
  }

  function ValueOf(updates: Updates, j: nat): string
    requires j < |updates|
  {
    updates[j].1
  }

  /** The inner loop over the updates for one line: the key of the first
      update whose "KEY=" starts the stripped line, unless the line is
      blank or a comment. */
  method MatchLine(line: string, stripped: string, updates: Updates) returns (key: string, found: bool)
    requires stripped == Strip(line)
    ensures found <==> LineMatch(line, updates).Some?
    ensures found ==> key == updates[LineMatch(line, updates).value].0
  {
    if stripped == [] || StartsWith(stripped, "#") {
      return "", false;
    }
    var j := 0;
    while j < |updates|
      invariant 0 <= j <= |updates|
      invariant forall m :: 0 <= m < j ==> !StartsWith(stripped, updates[m].0 + "=")
    {
      if StartsWith(stripped, updates[j].0 + "=") {
        FirstMatchIs(stripped, updates, j);
        return updates[j].0, true;
      }
      j := j + 1;
    }
    FirstMatchIs(stripped, updates, |updates|);
    return "", false;
  }

  /** FirstMatch finds the first index whose "KEY=" prefixes the text. */
  lemma {:induction false} FirstMatchIs(stripped: string, updates: Updates, j: nat)
    requires j <= |updates|
    requires forall m :: 0 <= m < j ==> !StartsWith(stripped, updates[m].0 + "=")
    requires j < |updates| ==> StartsWith(stripped, updates[j].0 + "=")
    ensures FirstMatch(stripped, updates) == if j < |updates| then Some(j) else None
    decreases j
  {
    if j > 0 {
      FirstMatchIs(stripped, updates[1..], j - 1);
    }
  }

  lemma MatchedKeysStep(lines: seq<string>, i: nat, updates: Updates)
    requires i < |lines|
    ensures MatchedKeys(lines[..i + 1], updates) == MatchedKeys(lines[..i], updates) + KeyOf(lines[i], updates)
  {
    var a := lines[..i + 1];
    assert a[..i] == lines[..i] && a[i] == lines[i];
  }

  // ---------------------------------------------------------------------
  // Properties

  /** Line by line: the first |lines| lines written correspond to the
      lines read; blank lines and comments are kept, a line whose stripped
      form starts with "KEY=" for an update key becomes that key's
      assignment (the first such key in the updates' order, indentation
      dropped), and every other line is kept. Every matching line is
      rewritten, not only the first. */
  lemma LineByLine(lines: seq<string>, updates: Updates, i: nat)
    requires i < |lines|
    ensures var out := UpdatedLines(lines, updates);
      |out| >= |lines| &&
      (Skipped(lines[i]) ==> out[i] == lines[i]) &&
      (!Skipped(lines[i]) && FirstMatch(Strip(lines[i]), updates).None? ==> out[i] == lines[i]) &&
      (forall j :: (0 <= j < |updates| && !Skipped(lines[i]) && StartsWith(Strip(lines[i]), updates[j].0 + "=") &&
                    (forall m :: 0 <= m < j ==> !StartsWith(Strip(lines[i]), updates[m].0 + "="))) ==>
         out[i] == Assignment(updates[j].0, updates[j].1))
  {
    forall j | 0 <= j < |updates| && !Skipped(lines[i]) && StartsWith(Strip(lines[i]), updates[j].0 + "=") &&
         (forall m :: 0 <= m < j ==> !StartsWith(Strip(lines[i]), updates[m].0 + "="))
      ensures FirstMatch(Strip(lines[i]), updates) == Some(j)
    {
      FirstMatchIs(Strip(lines[i]), updates, j);
    }
    var out := UpdatedLines(lines, updates);
    RewrittenAt(lines, updates, i);
    assert out[i] == Rewritten(lines, updates)[i];
  }

  /** Without duplicate keys, the appended lines are exactly the
      assignments of the keys not yet written, each once, in order. */
  lemma {:induction false} AppendedIsFilter(updates: Updates, written: set<string>)
    requires UniqueKeys(updates)
    ensures Appended(updates, written) == Assignments(Missing(updates, written))
    decreases |updates|
  {
    if updates != [] {
      var rest := updates[1..];
      assert UniqueKeys(rest);
      if updates[0].0 !in written {
        assert forall e :: e in rest ==> e.0 != updates[0].0;
        MissingIgnores(rest, written, updates[0].0);
        AppendedIsFilter(rest, written + {updates[0].0});
        var miss := [updates[0]] + Missing(rest, written);
        assert Missing(updates, written) == miss;
        assert miss[0] == updates[0] && miss[1..] == Missing(rest, written);
      } else {
        AppendedIsFilter(rest, written);
        assert Missing(updates, written) == [] + Missing(rest, written) == Missing(rest, written);
      }
    }
  }

  /** One assignment line per update, in order. */
  function Assignments(us: Updates): (r: seq<string>)
    ensures |r| == |us|
  {
    if us == [] then [] else [Assignment(us[0].0, us[0].1)] + Assignments(us[1..])
  }

  lemma {:induction false} AssignmentsAt(us: Updates, k: nat)
    requires k < |us|
    ensures Assignments(us)[k] == Assignment(us[k].0, us[k].1)
  {
    if k > 0 {
      AssignmentsAt(us[1..], k - 1);
    }
  }

  /** The updates whose key is not in the set, in order. */
  function Missing(updates: Updates, written: set<string>): seq<(string, string)> {
    if updates == [] then []
    else (if updates[0].0 in written then [] else [updates[0]]) + Missing(updates[1..], written)
  }

  lemma {:induction false} MissingIgnores(updates: Updates, written: set<string>, k: string)
    requires forall e :: e in updates ==> e.0 != k
    ensures Missing(updates, written + {k}) == Missing(updates, written)
    decreases |updates|
  {
    if updates != [] {
      assert updates[0] in updates;
      assert forall e :: e in updates[1..] ==> e in updates;
      MissingIgnores(updates[1..], written, k);
    }
  }

  /** The number of lines written is the number read plus one per key that
      matched no line. */
  lemma LineCount(lines: seq<string>, updates: Updates)
    requires UniqueKeys(updates)
    ensures |UpdatedLines(lines, updates)| == |lines| + |Missing(updates, MatchedKeys(lines, updates))|
  {
    AppendedIsFilter(updates, MatchedKeys(lines, updates));
  }

  /** After the rewrite every key has its assignment line: either a line
      was rewritten for it or it was appended. */
  lemma EveryKeyWritten(lines: seq<string>, updates: Updates, j: nat)
    requires UniqueKeys(updates) && j < |updates|
    ensures Assignment(updates[j].0, updates[j].1) in UpdatedLines(lines, updates)
  {
    var out := UpdatedLines(lines, updates);
    var matched := MatchedKeys(lines, updates);
    var k := updates[j].0;
    if k in matched {
      var i, j' := MatchedKeyLine(lines, updates, k);
      assert j' == j;
      RewrittenAt(lines, updates, i);
      assert out[i] == Rewritten(lines, updates)[i];
    } else {
      AppendedIsFilter(updates, matched);
      MissingHas(updates, matched, j);
      var miss := Missing(updates, matched);
      var k' :| 0 <= k' < |miss| && miss[k'] == updates[j];
      var tail := Appended(updates, matched);
      AssignmentsAt(miss, k');
      assert tail[k'] == Assignment(updates[j].0, updates[j].1);
      assert out[|lines| + k'] == tail[k'];
    }
  }

  lemma {:induction false} MissingHas(updates: Updates, written: set<string>, j: nat)
    requires j < |updates| && updates[j].0 !in written
    ensures updates[j] in Missing(updates, written)
    decreases j
  {
    if j > 0 {
      MissingHas(updates[1..], written, j - 1);
    }
  }

  /** The match is on the whole "KEY=" prefix: a line for a longer key
      that merely starts with KEY (SECRET_KEY_OLD for SECRET_KEY) is kept. */
  lemma LongerKeyKept(line: string, key: string, value: string, c: char)
    requires c != '=' && StartsWith(Strip(line), key + [c])
    ensures RewriteLine(line, [(key, value)]) == line
  {
    var s := Strip(line);
    assert |s| > |key| && s[|key|] == (key + [c])[|key|] == c;
  }

  // ---------------------------------------------------------------------
  // The written file

  /** The text ends with a line feed. */
  predicate EndsLf(s: string) {
    s != [] && s[|s| - 1] == '\n'
  }

  predicate NoLf(s: string) {
    forall k :: 0 <= k < |s| ==> s[k] != '\n'
  }

  /** One whole line of a file: a single line feed, at its end. */
  predicate IsLine(s: string) {
    EndsLf(s) && NoLf(s[..|s| - 1])
  }

  /** What `readlines` gives: every line but the last ends with its line
      feed. */
  predicate ReadLinesShape(lines: seq<string>) {
    forall i :: 0 <= i < |lines| - 1 ==> EndsLf(lines[i])
  }

  /** Keys and values without line feeds, as generated secrets are. */
  predicate NoLfUpdates(updates: Updates) {
    forall u :: u in updates ==> NoLf(u.0) && NoLf(u.1)
  }

  /** Appended string m is the assignment of one of the updates. */
  lemma {:induction false} AppendedAt(updates: Updates, written: set<string>, m: nat) returns (u: (string, string))
    requires m < |Appended(updates, written)|
    ensures u in updates && Appended(updates, written)[m] == Assignment(u.0, u.1)
    decreases |updates|
  {
    var rest := updates[1..];
    if updates[0].0 in written {
      u := AppendedAt(rest, written, m);
    } else if m == 0 {
      u := updates[0];
    } else {
      u := AppendedAt(rest, written + {updates[0].0}, m - 1);
    }
    assert u in rest ==> u in updates;
  }

  /** Written string m is either input line m, kept, or the assignment of
      one of the updates. */
  lemma UpdatedLineFrom(lines: seq<string>, updates: Updates, m: nat) returns (u: (string, string))
    requires m < |UpdatedLines(lines, updates)|
    ensures var s := UpdatedLines(lines, updates)[m];
      (m < |lines| && s == lines[m]) || (u in updates && s == Assignment(u.0, u.1))
  {
    var out := UpdatedLines(lines, updates);
    if m < |lines| {
      RewrittenAt(lines, updates, m);
      assert out[m] == Rewritten(lines, updates)[m];
      match LineMatch(lines[m], updates)
      case None =>
        u := ("", "");
      case Some(j) =>
        u := updates[j];
    } else {
      u := AppendedAt(updates, MatchedKeys(lines, updates), m - |lines|);
    }
  }

  /** The text of strings that each end with a line feed is empty or ends
      with a line feed. */
  lemma {:induction false} ConcatEndsLf(parts: seq<string>)
    requires forall i :: 0 <= i < |parts| ==> EndsLf(parts[i])
    ensures Concat(parts) == [] || EndsLf(Concat(parts))
  {
    if parts != [] {
      ConcatEndsLf(parts[1..]);
    }
  }

  /** Each whole line adds exactly one line feed to the text. */
  lemma {:induction false} ConcatLineCount(parts: seq<string>)
    requires forall i :: 0 <= i < |parts| ==> IsLine(parts[i])
    ensures CountChar(Concat(parts), '\n') == |parts|
  {
    if parts != [] {
      var p := parts[0];
      ConcatLineCount(parts[1..]);
      CountCharConcat(p, Concat(parts[1..]), '\n');
      NoLfCount(p[..|p| - 1]);
      assert p == p[..|p| - 1] + "\n";
      CountCharConcat(p[..|p| - 1], "\n", '\n');
    }
  }

  lemma {:induction false} NoLfCount(s: string)
    requires NoLf(s)
    ensures CountChar(s, '\n') == 0
  {
    if s != [] {
      NoLfCount(s[1..]);
    }
  }

  /** When the file read ends with a line feed, every written string ends
      with one. */
  lemma AllEndLf(lines: seq<string>, updates: Updates)
    requires forall i :: 0 <= i < |lines| ==> EndsLf(lines[i])
    ensures forall m :: 0 <= m < |UpdatedLines(lines, updates)| ==> EndsLf(UpdatedLines(lines, updates)[m])
  {
    forall m | 0 <= m < |UpdatedLines(lines, updates)| ensures EndsLf(UpdatedLines(lines, updates)[m]) {
      var u := UpdatedLineFrom(lines, updates, m);
    }
  }

  /** When the file consists of whole lines and no key or value holds a
      line feed, every written string is a whole line. */
  lemma AllWholeLines(lines: seq<string>, updates: Updates)
    requires forall i :: 0 <= i < |lines| ==> IsLine(lines[i])
    requires NoLfUpdates(updates)
    ensures forall m :: 0 <= m < |UpdatedLines(lines, updates)| ==> IsLine(UpdatedLines(lines, updates)[m])
  {
    forall m | 0 <= m < |UpdatedLines(lines, updates)| ensures IsLine(UpdatedLines(lines, updates)[m]) {
      var u := UpdatedLineFrom(lines, updates, m);
      var s := UpdatedLines(lines, updates)[m];
      if !(m < |lines| && s == lines[m]) {
        assert s[..|s| - 1] == u.0 + "=" + u.1;
      }
    }
  }

  /** When the file read ends with a line feed, every key's assignment
      starts a line of the written file and ends with its line feed. */
  lemma KeyOnItsOwnLine(lines: seq<string>, updates: Updates, j: nat) returns (k: nat)
    requires UniqueKeys(updates) && j < |updates|
    requires forall i :: 0 <= i < |lines| ==> EndsLf(lines[i])
    ensures var text := Concat(UpdatedLines(lines, updates));
      var a := Assignment(updates[j].0, updates[j].1);
      k + |a| <= |text| && text[k..k + |a|] == a && (k == 0 || text[k - 1] == '\n')
  {
    var out := UpdatedLines(lines, updates);
    var a := Assignment(updates[j].0, updates[j].1);
    EveryKeyWritten(lines, updates, j);
    var i :| 0 <= i < |out| && out[i] == a;
    AllEndLf(lines, updates);
    k := StartsALine(out, i);
  }

  /** In the text of strings that each end with a line feed, string i
      starts a line. */
  lemma StartsALine(out: seq<string>, i: nat) returns (k: nat)
    requires i < |out|
    requires forall m :: 0 <= m < |out| ==> EndsLf(out[m])
    ensures var text := Concat(out);
      k + |out[i]| <= |text| && text[k..k + |out[i]|] == out[i] && (k == 0 || text[k - 1] == '\n')
  {
    var a := out[i];
    var before, after := out[..i], out[i + 1..];
    ConcatAround(out, i);
    ConcatEndsLf(before);
    var pre := Concat(before);
    var text := pre + a + Concat(after);
    assert text[|pre|..|pre| + |a|] == a;
    if pre != [] {
      assert text[|pre| - 1] == pre[|pre| - 1];
    }
    k := |pre|;
  }

  /** The text splits around string i. */
  lemma ConcatAround(out: seq<string>, i: nat)
    requires i < |out|
    ensures Concat(out) == Concat(out[..i]) + out[i] + Concat(out[i + 1..])
  {
    var before, rest := out[..i], out[i..];
    assert out == before + rest;
    ConcatAppend(before, rest);
    assert rest[0] == out[i] && rest[1..] == out[i + 1..];
  }

  /** When the file consists of whole lines and no key or value holds a
      line feed, the written file has as many lines as were read plus one
      per key that matched no line, and ends with a line feed. */
  lemma FileLineCount(lines: seq<string>, updates: Updates)
    requires UniqueKeys(updates) && NoLfUpdates(updates)
    requires forall i :: 0 <= i < |lines| ==> IsLine(lines[i])
    ensures var text := Concat(UpdatedLines(lines, updates));
      CountChar(text, '\n') == |lines| + |Missing(updates, MatchedKeys(lines, updates))| &&
      (text == [] || EndsLf(text))
  {
    AllWholeLines(lines, updates);
    ConcatLineCount(UpdatedLines(lines, updates));
    LineCount(lines, updates);
    ConcatEndsLf(UpdatedLines(lines, updates));
  }

  /** As written: when the last line read has no line feed and matches no
      update, the first appended assignment is glued onto it, so its key
      does not start a line ("DEBUG=true" and SECRET_KEY=x give the text
      "DEBUG=trueSECRET_KEY=x" and a line feed). */
  lemma GluedOntoLastLine(line: string, key: string, value: string)
    requires line != [] && !EndsLf(line) && LineMatch(line, [(key, value)]).None?
    ensures var text := Concat(UpdatedLines([line], [(key, value)]));
      text == line + Assignment(key, value) && text[|line| - 1] != '\n'
  {
    OneUnmatchedLine(line, key, value);
  }

  /** The last line with a line feed added when it has none. */
  function EndLastLine(lines: seq<string>): (r: seq<string>)
    ensures |r| == |lines|
  {
    if lines == [] || EndsLf(lines[|lines| - 1]) then lines
    else lines[..|lines| - 1] + [lines[|lines| - 1] + "\n"]
  }

  /** The rewrite as intended: the file's last line is ended before the
      assignments are appended. */
  function UpdatedLinesEnded(lines: seq<string>, updates: Updates): seq<string> {
    UpdatedLines(EndLastLine(lines), updates)
  }

  /** Ending the last line leaves every line ending with a line feed, and
      changes nothing else. */
  lemma EndLastLineEnds(lines: seq<string>)
    requires ReadLinesShape(lines)
    ensures forall i :: 0 <= i < |lines| ==> EndsLf(EndLastLine(lines)[i])
    ensures forall i :: 0 <= i < |lines| - 1 ==> EndLastLine(lines)[i] == lines[i]
    ensures lines != [] ==> var last := lines[|lines| - 1];
      EndLastLine(lines)[|lines| - 1] == if EndsLf(last) then last else last + "\n"
  {
  }

  /** Corrected: with the last line ended first, every key's assignment
      starts a line of the written file, whatever the file's last line. */
  lemma KeyOnItsOwnLineEnded(lines: seq<string>, updates: Updates, j: nat) returns (k: nat)
    requires UniqueKeys(updates) && j < |updates| && ReadLinesShape(lines)
    ensures var text := Concat(UpdatedLinesEnded(lines, updates));
      var a := Assignment(updates[j].0, updates[j].1);
      k + |a| <= |text| && text[k..k + |a|] == a && (k == 0 || text[k - 1] == '\n')
  {
    EndLastLineEnds(lines);
    k := KeyOnItsOwnLine(EndLastLine(lines), updates, j);
  }

  /** Corrected: with the last line ended first, the key starts a line of
      its own. */
  lemma EndedOnItsOwnLine(line: string, key: string, value: string)
    requires line != [] && !EndsLf(line) && LineMatch(line + "\n", [(key, value)]).None?
    ensures var text := Concat(UpdatedLinesEnded([line], [(key, value)]));
      text == line + "\n" + Assignment(key, value) && text[|line|] == '\n'
  {
    assert EndLastLine([line]) == [line + "\n"];
    OneUnmatchedLine(line + "\n", key, value);
  }

  /** A single line that matches no update is kept and the
      assignment follows it. */
  lemma OneUnmatchedLine(line: string, key: string, value: string)
    requires LineMatch(line, [(key, value)]).None?
    ensures Concat(UpdatedLines([line], [(key, value)])) == line + Assignment(key, value)
  {
    var us := [(key, value)];
    assert [line][..0] == [];
    assert Rewritten([line], us) == [line];
    assert MatchedKeys([line], us) == {};
    assert Appended(us, {}) == [Assignment(key, value)] + Appended([], {key});
    var out := [line, Assignment(key, value)];
    assert UpdatedLines([line], us) == out;
    assert Concat(out) == line + Concat([Assignment(key, value)]);
    assert Concat([Assignment(key, value)]) == Assignment(key, value) + Concat([]);
  }
}
