/** The comma-joined tag column: normalising, joining, splitting, and the search that
    must find exactly the articles carrying a tag. */
module Tags {
  import opened Text

  // ---------------------------------------------------------------- characters

  /** Unicode white space, as strings.TrimSpace sees it. */
  predicate IsSpace(c: char) {
    || '\t' <= c <= '\r' || c == ' ' || c == '\U{85}' || c == '\U{A0}' || c == '\U{1680}'
    || '\U{2000}' <= c <= '\U{200A}' || c == '\U{2028}' || c == '\U{2029}' || c == '\U{202F}'
    || c == '\U{205F}' || c == '\U{3000}'
  }

  function LowerChar(c: char): (r: char)
    ensures !('A' <= r <= 'Z') && (r == c || 'a' <= r <= 'z')
    ensures r == c || ('A' <= c <= 'Z' && r as int - 'a' as int == c as int - 'A' as int)
    ensures IsSpace(r) <==> IsSpace(c)
    ensures r == ',' <==> c == ','
  {
    if 'A' <= c <= 'Z' then (c as int + 32) as char else c
  }

  function Lower(s: string): (r: string)
    ensures |r| == |s| && forall i | 0 <= i < |s| :: r[i] == LowerChar(s[i])
  {
    if s == "" then "" else [LowerChar(s[0])] + Lower(s[1..])
  }

  function TrimLeft(s: string): (r: string)
    ensures r != "" ==> !IsSpace(r[0])
    ensures r != "" ==> s != "" && r[|r| - 1] == s[|s| - 1]
  {
    if s != "" && IsSpace(s[0]) then TrimLeft(s[1..]) else s
  }

  function TrimRight(s: string): (r: string)
    ensures r != "" ==> !IsSpace(r[|r| - 1])
    ensures r != "" ==> s != "" && r[0] == s[0]
  {
    if s != "" && IsSpace(s[|s| - 1]) then TrimRight(s[..|s| - 1]) else s
  }

  function Trim(s: string): string { TrimRight(TrimLeft(s)) }

  /** What a tag is reduced to before it is stored or searched for. */
  function Clean(tag: string): string { Lower(Trim(tag)) }

  predicate Trimmed(s: string) { s == "" || (!IsSpace(s[0]) && !IsSpace(s[|s| - 1])) }

  lemma TrimIsTrimmed(s: string)
    ensures Trimmed(Trim(s))
  {
    hide IsSpace;
  }

  lemma {:induction false} LeftEnd(s: string) returns (i: nat)
    ensures i <= |s| && TrimLeft(s) == s[i..] && forall k | 0 <= k < i :: IsSpace(s[k])
  {
    hide IsSpace;
    i := 0;
    if s != "" && IsSpace(s[0]) {
      var j := LeftEnd(s[1..]);
      i := j + 1;
      assert s[1..][j..] == s[i..];
      assert forall k | 0 < k < i :: s[k] == s[1..][k - 1];
    }
  }

  lemma {:induction false} RightEnd(s: string) returns (j: nat)
    ensures j <= |s| && TrimRight(s) == s[..j] && forall k | j <= k < |s| :: IsSpace(s[k])
  {
    hide IsSpace;
    j := |s|;
    if s != "" && IsSpace(s[|s| - 1]) {
      var t := s[..|s| - 1];
      j := RightEnd(t);
      assert t[..j] == s[..j];
      assert forall k | j <= k < |t| :: s[k] == t[k];
    }
  }

  /** Trimming takes white space off both ends and nothing else. */
  lemma TrimTakesSpaceOnly(s: string) returns (i: nat, j: nat)
    ensures i <= j <= |s| && Trim(s) == s[i..j]
    ensures forall k | 0 <= k < i || j <= k < |s| :: IsSpace(s[k])
  {
    hide IsSpace, TrimLeft, TrimRight;
    i := LeftEnd(s);
    var t := s[i..];
    var n := RightEnd(t);
    j := i + n;
    assert t[..n] == s[i..j];
    forall k | j <= k < |s|
      ensures IsSpace(s[k])
    {
      assert s[k] == t[k - i];
    }
  }

  /** Two tags clean to the same one when they differ in letter case only. */
  lemma {:induction false} CaseIsIgnored(s: string, t: string)
    requires |s| == |t|
    requires forall i | 0 <= i < |s| :: s[i] == t[i] || ('A' <= s[i] <= 'Z' && t[i] as int == s[i] as int + 32)
    ensures Lower(s) == Lower(t)
  {
    if s != "" {
      CaseIsIgnored(s[1..], t[1..]);
    }
  }

  lemma TrimmedStays(s: string)
    requires Trimmed(s)
    ensures Trim(s) == s
  {
    hide IsSpace;
  }

  lemma {:induction false} LowerTwice(s: string)
    ensures Lower(Lower(s)) == Lower(s)
  {
    hide IsSpace;
    if s != "" {
      LowerTwice(s[1..]);
      var t := Lower(s);
      assert t[1..] == Lower(s[1..]);
    }
  }

  lemma LowerKeepsTrimmed(s: string)
    requires Trimmed(s)
    ensures Trimmed(Lower(s))
  {
    hide IsSpace;
  }

  lemma CleanIsClean(tag: string)
    ensures Trimmed(Clean(tag)) && Lower(Clean(tag)) == Clean(tag) && Clean(Clean(tag)) == Clean(tag)
  {
    hide Trim, Lower, Trimmed;
    TrimIsTrimmed(tag);
    LowerTwice(Trim(tag));
    LowerKeepsTrimmed(Trim(tag));
    TrimmedStays(Clean(tag));
  }

  // ---------------------------------------------------------------- normalising

  /** Clean every tag, drop the empty ones and the repeats. */
  function Normalize(tags: seq<string>): seq<string> {
    if tags == [] then []
    else
      var kept, cleaned := Normalize(tags[..|tags| - 1]), Clean(tags[|tags| - 1]);
      if cleaned == "" || cleaned in kept then kept else kept + [cleaned]
  }

  method NormalizeTags(tags: seq<string>) returns (normalized: seq<string>)
    ensures normalized == Normalize(tags)
  {
    if |tags| == 0 {
      return [];
    }
    normalized := [];
    var seen: set<string>, i := {}, 0;
    while i < |tags|
      invariant 0 <= i <= |tags|
      invariant normalized == Normalize(tags[..i])
      invariant forall t :: t in seen <==> t in normalized
    {
      assert tags[..i + 1][..i] == tags[..i];
      var cleaned := Clean(tags[i]);
      i := i + 1;
      if cleaned == "" {
        continue;
      }
      if cleaned in seen {
        continue;
      }
      seen := seen + {cleaned};
      normalized := normalized + [cleaned];
    }
    assert tags[..i] == tags;
  }

  /** Where a cleaned tag occurs first, |tags| if it does not. */
  function FirstUse(tags: seq<string>, cleaned: string): nat {
    if tags == [] then 0
    else
      var k := FirstUse(tags[..|tags| - 1], cleaned);
      if k < |tags| - 1 || Clean(tags[|tags| - 1]) == cleaned then k else |tags|
  }

  lemma {:induction false} FirstUseMeans(tags: seq<string>, cleaned: string)
    ensures var k := FirstUse(tags, cleaned);
      && k <= |tags| && (k < |tags| ==> Clean(tags[k]) == cleaned)
      && forall j | 0 <= j < k :: Clean(tags[j]) != cleaned
  {
    hide Clean;
    if tags != [] {
      FirstUseMeans(tags[..|tags| - 1], cleaned);
    }
  }

  /** A use in the shorter list is the first use in the longer one. */
  lemma FirstUseExtends(tags: seq<string>, t: string)
    requires tags != []
    ensures var init, cleaned := tags[..|tags| - 1], Clean(tags[|tags| - 1]);
      && (FirstUse(init, t) < |init| ==> FirstUse(tags, t) == FirstUse(init, t))
      && (FirstUse(tags, t) < |tags| <==> FirstUse(init, t) < |init| || t == cleaned)
  {
    hide Clean;
    FirstUseMeans(tags[..|tags| - 1], t);
  }

  /** Normalising keeps exactly the non-empty cleaned tags, each once, in the order of
      their first use. */
  lemma {:induction false} NormalizeMeans(tags: seq<string>)
    ensures forall t :: t in Normalize(tags) <==> t != "" && FirstUse(tags, t) < |tags|
    ensures InFirstUseOrder(tags, Normalize(tags))
  {
    hide Clean, FirstUse, InFirstUseOrder;
    if tags == [] {
      EmptyUses();
    } else {
      var init, cleaned := tags[..|tags| - 1], Clean(tags[|tags| - 1]);
      NormalizeMeans(init);
      var kept, n := Normalize(init), Normalize(tags);
      forall t
        ensures t in n <==> t != "" && FirstUse(tags, t) < |tags|
      {
        FirstUseExtends(tags, t);
        assert t in n <==> t in kept || (t == cleaned && cleaned != "");
      }
      if cleaned == "" || cleaned in kept {
        OrderKept(tags, kept);
      } else {
        OrderGrows(tags, kept, cleaned);
      }
    }
  }

  lemma EmptyUses()
    ensures forall t :: FirstUse([], t) == 0
    ensures InFirstUseOrder([], [])
  {
  }

  predicate InFirstUseOrder(tags: seq<string>, n: seq<string>) {
    forall i, j | 0 <= i < j < |n| :: FirstUse(tags, n[i]) < FirstUse(tags, n[j])
  }

  lemma OrderKept(tags: seq<string>, kept: seq<string>)
    requires tags != [] && InFirstUseOrder(tags[..|tags| - 1], kept)
    requires forall t | t in kept :: FirstUse(tags[..|tags| - 1], t) < |tags| - 1
    ensures InFirstUseOrder(tags, kept)
    ensures forall t | t in kept :: FirstUse(tags, t) < |tags| - 1
  {
    hide FirstUse;
    forall t | t in kept
      ensures FirstUse(tags, t) == FirstUse(tags[..|tags| - 1], t)
    {
      FirstUseExtends(tags, t);
    }
  }

  lemma OrderGrows(tags: seq<string>, kept: seq<string>, cleaned: string)
    requires tags != [] && InFirstUseOrder(tags[..|tags| - 1], kept) && cleaned == Clean(tags[|tags| - 1])
    requires forall t | t in kept :: FirstUse(tags[..|tags| - 1], t) < |tags| - 1
    requires FirstUse(tags[..|tags| - 1], cleaned) >= |tags| - 1
    ensures InFirstUseOrder(tags, kept + [cleaned])
  {
    OrderKept(tags, kept);
    assert FirstUse(tags, cleaned) >= |tags| - 1;
    hide FirstUse, Clean;
    var n := kept + [cleaned];
    assert forall i | 0 <= i < |kept| :: n[i] == kept[i] && kept[i] in kept;
  }

  predicate NoRepeats(list: seq<string>) {
    forall i, j | 0 <= i < j < |list| :: list[i] != list[j]
  }

  lemma NormalizeHasNoRepeats(tags: seq<string>)
    ensures NoRepeats(Normalize(tags))
  {
    hide Normalize, FirstUse, Clean;
    NormalizeMeans(tags);
  }

  lemma {:induction false} NormalizedIsClean(tags: seq<string>)
    ensures forall t | t in Normalize(tags) :: t != "" && Clean(t) == t && Trimmed(t) && Lower(t) == t
  {
    hide Clean, Trimmed, Lower;
    if tags != [] {
      NormalizedIsClean(tags[..|tags| - 1]);
      CleanIsClean(tags[|tags| - 1]);
    }
  }

  lemma {:induction false} CleanListIsKept(tags: seq<string>)
    requires forall t | t in tags :: t != "" && Clean(t) == t
    requires NoRepeats(tags)
    ensures Normalize(tags) == tags
  {
    hide Clean;
    if tags != [] {
      var init, last := tags[..|tags| - 1], tags[|tags| - 1];
      assert last in tags;
      assert forall t | t in init :: t in tags;
      CleanListIsKept(init);
      assert last !in init;
      assert init + [last] == tags;
    }
  }

  /** Normalising twice is normalising once. */
  lemma NormalizeIsIdempotent(tags: seq<string>)
    ensures Normalize(Normalize(tags)) == Normalize(tags)
  {
    hide Clean, Trimmed;
    NormalizedIsClean(tags);
    NormalizeHasNoRepeats(tags);
    CleanListIsKept(Normalize(tags));
  }

  // ---------------------------------------------------------------- joining and splitting

  function Join(parts: seq<string>): string {
    if parts == [] then ""
    else if |parts| == 1 then parts[0]
    else parts[0] + [','] + Join(parts[1..])
  }

  /** The text before the first comma, all of it if there is none. */
  function Head(s: string): (h: string)
    ensures ',' !in h && |h| <= |s| && h == s[..|h|]
    ensures |h| < |s| ==> s[|h|] == ','
    ensures |h| == |s| ==> ',' !in s
  {
    if s == "" || s[0] == ',' then "" else [s[0]] + Head(s[1..])
  }

  /** strings.Split(s, ","): one piece more than there are commas. */
  function Split(s: string): (pieces: seq<string>)
    ensures |pieces| >= 1
    decreases |s|
  {
    var h := Head(s);
    if |h| == |s| then [s] else [h] + Split(s[|h| + 1..])
  }

  function JoinTags(tags: seq<string>): string { Join(Normalize(tags)) }

  function SplitTags(s: string): seq<string> {
    if Trim(s) == "" then [] else Split(s)
  }

  function Commas(s: string): nat {
    if s == "" then 0 else (if s[0] == ',' then 1 else 0) + Commas(s[1..])
  }

  function CommasIn(parts: seq<string>): nat {
    if parts == [] then 0 else Commas(parts[0]) + CommasIn(parts[1..])
  }

  lemma {:induction false} CommasAdd(s: string, t: string)
    ensures Commas(s + t) == Commas(s) + Commas(t)
  {
    if s == "" {
      assert s + t == t;
    } else {
      CommasAdd(s[1..], t);
      assert (s + t)[1..] == s[1..] + t;
    }
  }

  lemma {:induction false} NoCommas(s: string)
    ensures Commas(s) == 0 <==> ',' !in s
  {
    if s != "" {
      NoCommas(s[1..]);
      assert s == [s[0]] + s[1..];
    }
  }

  lemma {:induction false} SplitCounts(s: string)
    ensures |Split(s)| == Commas(s) + 1
    decreases |s|
  {
    var h := Head(s);
    NoCommas(h);
    if |h| == |s| {
      assert h == s;
    } else {
      var rest := s[|h| + 1..];
      SplitCounts(rest);
      assert s == h + ([','] + rest);
      CommasAdd(h, [','] + rest);
      assert ([','] + rest)[1..] == rest;
    }
  }

  lemma {:induction false} JoinCounts(parts: seq<string>)
    requires parts != []
    ensures Commas(Join(parts)) + 1 == |parts| + CommasIn(parts)
  {
    if |parts| == 1 {
      assert CommasIn(parts[1..]) == 0;
    } else {
      JoinCounts(parts[1..]);
      var rest := Join(parts[1..]);
      assert Join(parts) == parts[0] + ([','] + rest);
      CommasAdd(parts[0], [','] + rest);
      assert ([','] + rest)[1..] == rest;
    }
  }

  lemma {:induction false} NoCommasIn(parts: seq<string>)
    ensures CommasIn(parts) == 0 <==> forall p | p in parts :: ',' !in p
  {
    if parts != [] {
      NoCommasIn(parts[1..]);
      NoCommas(parts[0]);
      assert forall p :: p in parts <==> p == parts[0] || p in parts[1..];
    }
  }

  /** Splitting at the first comma. */
  lemma SplitOnce(a: string, rest: string)
    requires ',' !in a
    ensures Split(a + [','] + rest) == [a] + Split(rest)
    ensures Split(a) == [a]
  {
    var s := a + [','] + rest;
    var h := Head(s);
    assert s[|a|] == ',';
    assert ',' in s && |h| < |s|;
    assert s == h + [','] + s[|h| + 1..];
    SplitFirst(a, h, ',', rest, s[|h| + 1..]);
    assert forall i | 0 <= i < |a| :: a[i] in a;
  }

  lemma {:induction false} SplitJoin(parts: seq<string>)
    requires parts != [] && forall p | p in parts :: ',' !in p
    ensures Split(Join(parts)) == parts
  {
    assert parts[0] in parts;
    if |parts| == 1 {
      SplitOnce(parts[0], "");
    } else {
      SplitJoin(parts[1..]);
      SplitOnce(parts[0], Join(parts[1..]));
    }
  }

  lemma JoinIsNotBlank(parts: seq<string>)
    requires parts != [] && parts[0] != "" && !IsSpace(parts[0][0])
    ensures Trim(Join(parts)) != ""
  {
    var s := Join(parts);
    assert s != "" && s[0] == parts[0][0];
    assert TrimLeft(s) == s;
    KeepsFirst(s);
  }

  lemma {:induction false} KeepsFirst(s: string)
    requires s != "" && !IsSpace(s[0])
    ensures TrimRight(s) != ""
  {
    if IsSpace(s[|s| - 1]) {
      KeepsFirst(s[..|s| - 1]);
    }
  }

  /** How many tags come back: one for each kept tag and one more for each comma in them. */
  lemma ReadBackCount(tags: seq<string>)
    ensures |SplitTags(JoinTags(tags))| == |Normalize(tags)| + CommasIn(Normalize(tags))
  {
    var n := Normalize(tags);
    hide Normalize, Clean;
    if n != [] {
      NormalizedIsClean(tags);
      assert n[0] in n;
      JoinIsNotBlank(n);
      SplitCounts(Join(n));
      JoinCounts(n);
    }
  }

  /** What is read back is what was normalised, exactly when no tag contains a comma. */
  lemma TagsRoundTrip(tags: seq<string>)
    ensures SplitTags(JoinTags(tags)) == Normalize(tags) <==> forall t | t in Normalize(tags) :: ',' !in t
  {
    var n := Normalize(tags);
    hide Normalize, Clean;
    ReadBackCount(tags);
    NoCommasIn(n);
    if n != [] && forall t | t in n :: ',' !in t {
      NormalizedIsClean(tags);
      assert n[0] in n;
      JoinIsNotBlank(n);
      SplitJoin(n);
    }
  }

  // ---------------------------------------------------------------- searching

  /** ",tag," stands at position i. */
  predicate StandsAt(text: string, tag: string, i: nat) {
    i + |tag| + 2 <= |text| && text[i..i + |tag| + 2] == [','] + tag + [',']
  }

  /** instr(',' || tags || ',', ',' || tag || ',') > 0. */
  ghost predicate Instr(tags: string, tag: string) {
    exists i: nat :: StandsAt([','] + tags + [','], tag, i)
  }

  function IndexOf(pieces: seq<string>, tag: string): nat {
    if pieces == [] then 0
    else if pieces[0] == tag then 1
    else if IndexOf(pieces[1..], tag) == 0 then 0 else IndexOf(pieces[1..], tag) + 1
  }

  /** MySQL's FIND_IN_SET: the 1-based position in the comma list, 0 if absent, if the
      list is empty or if the tag itself contains a comma. */
  function FindInSet(tag: string, tags: string): nat {
    if ',' in tag || tags == "" then 0 else IndexOf(Split(tags), tag)
  }

  lemma {:induction false} IndexOfFinds(pieces: seq<string>, tag: string)
    ensures IndexOf(pieces, tag) > 0 <==> tag in pieces
    ensures tag in pieces ==> IndexOf(pieces, tag) <= |pieces| && pieces[IndexOf(pieces, tag) - 1] == tag
  {
    if pieces != [] {
      IndexOfFinds(pieces[1..], tag);
      assert tag in pieces <==> tag == pieces[0] || tag in pieces[1..];
    }
  }

  lemma StandsFirst(head: string, rest: string, tag: string)
    requires ',' !in head && ',' !in tag
    ensures StandsAt([','] + head + [','] + rest, tag, 0) <==> tag == head
  {
    var text := [','] + head + [','] + rest;
    if StandsAt(text, tag, 0) {
      var x := text[|tag| + 2..];
      assert text == ([','] + tag + [',']) + x;
      assert text[1..] == tag + [','] + x && text[1..] == head + [','] + rest;
      SplitFirst(tag, head, ',', x, rest);
    }
    if tag == head {
      assert text[0..|tag| + 2] == [','] + tag + [','];
    }
  }

  lemma StandsLater(head: string, rest: string, tag: string, i: nat)
    requires ',' !in head
    ensures i > |head| ==>
              (StandsAt([','] + head + [','] + rest, tag, i) <==> StandsAt([','] + rest, tag, i - |head| - 1))
    ensures 0 < i <= |head| ==> !StandsAt([','] + head + [','] + rest, tag, i)
  {
    var text := [','] + head + [','] + rest;
    assert text[|head| + 1..] == [','] + rest;
    if i > |head| {
      if i + |tag| + 2 <= |text| {
        assert text[i..i + |tag| + 2] == text[|head| + 1..][i - |head| - 1..i - |head| - 1 + |tag| + 2];
      }
    } else if 0 < i {
      assert text[i] == head[i - 1];
      assert i + |tag| + 2 <= |text| ==> text[i..i + |tag| + 2][0] == text[i];
    }
  }

  /** For a comma-free tag the wrapped substring test on any text is membership in the
      split list. */
  lemma {:induction false} InstrIsMembership(tags: string, tag: string)
    requires ',' !in tag
    ensures Instr(tags, tag) <==> tag in Split(tags)
    decreases |tags|
  {
    var h, text := Head(tags), [','] + tags + [','];
    if |h| == |tags| {
      assert text == [','] + h + [','] + [];
      assert h == tags && text == [','] + tags + [','];
      StandsFirst(h, [], tag);
      assert StandsAt(text, tag, 0) <==> tag == tags;
      forall i: nat | 0 < i
        ensures !StandsAt(text, tag, i)
      {
        StandsLater(h, [], tag, i);
      }
    } else {
      var rest := tags[|h| + 1..];
      var text' := [','] + rest + [','];
      assert text == [','] + h + [','] + (rest + [',']);
      assert text' == [','] + (rest + [',']);
      StandsFirst(h, rest + [','], tag);
      InstrIsMembership(rest, tag);
      forall i: nat | 0 < i
        ensures StandsAt(text, tag, i) <==> i > |h| && StandsAt(text', tag, i - |h| - 1)
      {
        StandsLater(h, rest + [','], tag, i);
      }
      if tag in Split(rest) {
        var i: nat :| StandsAt(text', tag, i);
        assert StandsAt(text, tag, i + |h| + 1);
      }
    }
  }

  /** On a comma-free non-empty tag the two dialects of the tag filter agree. */
  lemma DialectsAgree(tags: string, tag: string)
    requires tag != "" && ',' !in tag
    ensures FindInSet(tag, tags) > 0 <==> Instr(tags, tag)
  {
    InstrIsMembership(tags, tag);
    IndexOfFinds(Split(tags), tag);
  }

  /** The two dialects agree on every column value exactly when the tag has no comma: a tag
      with one is found as text in itself but is never a member. */
  lemma DialectsAgreeExactly(tag: string)
    requires tag != ""
    ensures (forall tags: string :: FindInSet(tag, tags) > 0 <==> Instr(tags, tag)) <==> ',' !in tag
  {
    hide StandsAt, Split;
    if ',' in tag {
      Wrapped(tag);
      assert FindInSet(tag, tag) == 0 && Instr(tag, tag);
    } else {
      forall tags: string
        ensures FindInSet(tag, tags) > 0 <==> Instr(tags, tag)
      {
        DialectsAgree(tags, tag);
      }
    }
  }

  lemma Wrapped(tag: string)
    ensures StandsAt([','] + tag + [','], tag, 0)
  {
    var text := [','] + tag + [','];
    assert text[0..|tag| + 2] == text;
  }

  lemma {:induction false} LowerJoin(parts: seq<string>)
    requires forall p | p in parts :: Lower(p) == p
    ensures Lower(Join(parts)) == Join(parts)
  {
    var s := Join(parts);
    if parts != [] {
      assert Lower(parts[0]) == parts[0];
      if |parts| > 1 {
        LowerJoin(parts[1..]);
        LowerParts(parts[0], [','] + Join(parts[1..]));
        assert s == parts[0] + ([','] + Join(parts[1..]));
      }
    }
  }

  lemma LowerParts(s: string, t: string)
    requires forall i | 0 <= i < |s| :: LowerChar(s[i]) == s[i]
    requires |t| > 0 && t[0] == ',' && Lower(t[1..]) == t[1..]
    ensures Lower(s + t) == s + t
  {
    assert forall i | 0 < i < |t| :: t[i] == t[1..][i - 1];
  }

  /** Does the tag filter keep an article stored with these tags? */
  ghost predicate Kept(mysql: bool, stored: string, wanted: string) {
    var tag := Clean(wanted);
    tag == "" || if mysql then FindInSet(tag, Lower(stored)) > 0 else Instr(Lower(stored), tag)
  }

  /** A blank search is no search. */
  lemma BlankKeepsAll(mysql: bool, stored: string, wanted: string)
    requires forall c | c in wanted :: IsSpace(c)
    ensures Kept(mysql, stored, wanted)
  {
    hide IsSpace, FindInSet, Instr;
    var i, j := TrimTakesSpaceOnly(wanted);
    TrimIsTrimmed(wanted);
    assert Trim(wanted) == "" by {
      assert forall i | 0 <= i < |wanted| :: IsSpace(wanted[i]);
    }
  }

  /** Searching finds what storing put there: with comma-free tags, both dialects keep an
      article exactly when the wanted tag, cleaned, is one of its normalised tags. */
  lemma SearchFindsTags(mysql: bool, tags: seq<string>, wanted: string)
    requires ',' !in Clean(wanted) && Clean(wanted) != "" && forall t | t in Normalize(tags) :: ',' !in t
    ensures Kept(mysql, JoinTags(tags), wanted) <==> Clean(wanted) in Normalize(tags)
  {
    var n, tag := Normalize(tags), Clean(wanted);
    hide Normalize, Clean, FindInSet, Instr, Split;
    NormalizedIsClean(tags);
    LowerJoin(n);
    DialectsAgree(Join(n), tag);
    InstrIsMembership(Join(n), tag);
    if n != [] {
      SplitJoin(n);
    } else {
      SplitOnce("", "");
    }
  }
}
