/** What the response extractor guarantees: the cleaning steps only
    delete, leave no code fence behind and pass a fenced or bare object
    through whole; the strict path wins when it can; safety is never
    raised above what the model wrote; the recovery path reports only
    quoted runs that occur in the reply; a reply with no brace and no quote
    fails; the analysis parsers never fail. */
module CerebrasServiceLemmas {
  import opened Wrappers
  import opened JsText
  import opened Json
  import opened Types
  import opened CerebrasService

  // ---------------------------------------------------------------------
  // The field pattern

  lemma QuotedRunSound(s: string, p: string)
    requires QuotedRunAfter(s, p).Some?
    ensures var v := QuotedRunAfter(s, p).value;
      v != [] && '"' !in v && exists i :: QuotedRunAt(s, p, i, v)
  {
    var n := LeadingBlank(s[|p|..]);
    var i := |p| + n;
    var k := IndexOf(s[i + 1..], '"');
    var v := s[i + 1..i + 1 + k];
    assert v == s[i + 1..][..k];
    assert s[|p|..i] == s[|p|..][..n];
    assert s[i + 1 + k] == s[i + 1..][k];
    assert forall j :: 0 <= j < k ==> v[j] == s[i + 1..][j];
    assert QuotedRunAt(s, p, i, v);
  }

  lemma QuotedRunComplete(s: string, p: string, i: int, v: string)
    requires QuotedRunAt(s, p, i, v) && v != [] && '"' !in v
    ensures QuotedRunAfter(s, p) == Some(v)
  {
    BlankRunEndsAt(s, p, i, v);
    CloseQuoteAt(s, p, i, v);
  }

  lemma BlankRunEndsAt(s: string, p: string, i: int, v: string)
    requires QuotedRunAt(s, p, i, v)
    ensures |p| + LeadingBlank(s[|p|..]) == i
  {
    var t := s[|p|..];
    assert t[..i - |p|] == s[|p|..i];
    assert t[i - |p|] == '"';
    LeadingBlankUnique(t, i - |p|);
  }

  lemma CloseQuoteAt(s: string, p: string, i: int, v: string)
    requires QuotedRunAt(s, p, i, v) && '"' !in v
    ensures IndexOf(s[i + 1..], '"') == |v|
  {
    var u := s[i + 1..];
    assert u[..|v|] == v;
    assert u[|v|] == '"';
    assert forall j :: 0 <= j < |v| ==> u[j] == v[j] && v[j] in v;
    IndexOfUnique(u, '"', |v|);
  }

  /** A match is one or more non-quote characters, found after the key,
      optional whitespace and an opening quote, and followed by a closing quote. */
  lemma MatchFieldSound(s: string, key: string)
    requires MatchFieldAt(s, key).Some?
    ensures var v := MatchFieldAt(s, key).value;
      v != [] && '"' !in v && exists i :: QuotedRunAt(s, FieldPrefix(key), i, v)
  {
    QuotedRunSound(s, FieldPrefix(key));
  }

  /** Conversely, the key, whitespace and a quoted run of non-quote
      characters always match, whatever follows. */
  lemma MatchFieldComplete(s: string, key: string, i: int, v: string)
    requires QuotedRunAt(s, FieldPrefix(key), i, v) && v != [] && '"' !in v
    ensures MatchFieldAt(s, key) == Some(v)
  {
    QuotedRunComplete(s, FieldPrefix(key), i, v);
  }

  // ---------------------------------------------------------------------
  // Cleaning only deletes

  lemma SuffixMultiset(s: string, k: int)
    requires 0 <= k <= |s|
    ensures multiset(s[k..]) <= multiset(s)
  {
    assert s == s[..k] + s[k..];
  }

  lemma {:induction false} RemoveJsonFencesDeletes(s: string)
    ensures multiset(RemoveJsonFences(s)) <= multiset(s)
    decreases |s|
  {
    if s == [] {
    } else if JsonFenceAt(s) {
      var t := TrimStart(s[7..]);
      RemoveJsonFencesDeletes(t);
      assert t == s[|s| - |t|..];
      SuffixMultiset(s, |s| - |t|);
    } else {
      RemoveJsonFencesDeletes(s[1..]);
      assert s == [s[0]] + s[1..];
    }
  }

  lemma {:induction false} RemoveFencesDeletes(s: string)
    ensures multiset(RemoveFences(s)) <= multiset(s)
    decreases |s|
  {
    if s == [] {
    } else if FenceAt(s) {
      var t := TrimStart(s[3..]);
      RemoveFencesDeletes(t);
      assert t == s[|s| - |t|..];
      SuffixMultiset(s, |s| - |t|);
    } else {
      RemoveFencesDeletes(s[1..]);
      assert s == [s[0]] + s[1..];
    }
  }

  /** Cleaning never adds a character: every character of the cleaned
      text, counted with multiplicity, comes from the reply. */
  lemma CleanOnlyDeletes(content: string)
    ensures multiset(Clean(content)) <= multiset(content)
  {
    var t := Trim(content);
    TrimDeletes(content);
    var a := RemoveJsonFences(t);
    RemoveJsonFencesDeletes(t);
    var b := RemoveFences(a);
    RemoveFencesDeletes(a);
    SuffixMultiset(b, |b| - |StripJsonTag(b)|);
  }

  lemma TrimDeletes(s: string)
    ensures multiset(Trim(s)) <= multiset(s)
  {
    var t := TrimStart(s);
    SuffixMultiset(s, LeadingBlank(s));
    var r := TrimEnd(t);
    assert t == r + t[KeptLength(t)..];
    assert Trim(s) == r;
  }

  // ---------------------------------------------------------------------
  // No fence survives

  lemma FirstTickComesFromInput(u: string)
    ensures (RemoveFences(u) != [] && RemoveFences(u)[0] == '`') ==> (u != [] && u[0] == '`')
  {
    if u != [] && FenceAt(u) {
      assert u[0] == u[..3][0];
    }
  }

  lemma TwoTicksComeFromInput(u: string)
    ensures (|RemoveFences(u)| >= 2 && RemoveFences(u)[0] == '`' && RemoveFences(u)[1] == '`')
            ==> (|u| >= 2 && u[0] == '`' && u[1] == '`')
  {
    if u != [] && FenceAt(u) {
      assert u[0] == u[..3][0] && u[1] == u[..3][1];
    } else if u != [] {
      FirstTickComesFromInput(u[1..]);
    }
  }

  lemma {:induction false} RemoveFencesLeavesNoFence(s: string)
    ensures !Contains(RemoveFences(s), Fence)
    decreases |s|
  {
    if s == [] {
    } else if FenceAt(s) {
      RemoveFencesLeavesNoFence(TrimStart(s[3..]));
    } else {
      var r1 := RemoveFences(s[1..]);
      var r := RemoveFences(s);
      RemoveFencesLeavesNoFence(s[1..]);
      assert r == [s[0]] + r1;
      NoFenceAtHead(s);
      forall i | 1 <= i <= |r| - 3 ensures !OccursAt(r, Fence, i) {
        assert r[i..i + 3] == r1[i - 1..i + 2];
        assert !OccursAt(r1, Fence, i - 1);
      }
    }
  }

  /** Keeping a character that starts no fence does not make one with the
      rest of the output. */
  lemma NoFenceAtHead(s: string)
    requires s != [] && !FenceAt(s)
    ensures !OccursAt([s[0]] + RemoveFences(s[1..]), Fence, 0)
  {
    var r1 := RemoveFences(s[1..]);
    TwoTicksComeFromInput(s[1..]);
    if |r1| >= 2 {
      assert ([s[0]] + r1)[0..3] == [s[0], r1[0], r1[1]];
      assert |s| >= 3 ==> s[..3] == [s[0], s[1], s[2]];
    }
  }

  lemma NoFenceInSuffix(s: string, k: int)
    requires 0 <= k <= |s| && !Contains(s, Fence)
    ensures !Contains(s[k..], Fence)
  {
    forall i | 0 <= i <= |s[k..]| - 3 ensures !OccursAt(s[k..], Fence, i) {
      assert s[k..][i..i + 3] == s[k + i..k + i + 3];
      assert !OccursAt(s, Fence, k + i);
    }
  }

  /** The cleaned text holds no ``` anywhere, tagged or not. */
  lemma CleanLeavesNoFence(content: string)
    ensures !Contains(Clean(content), Fence)
  {
    var u := RemoveFences(RemoveJsonFences(Trim(content)));
    RemoveFencesLeavesNoFence(RemoveJsonFences(Trim(content)));
    NoFenceInSuffix(u, |u| - |StripJsonTag(u)|);
  }

  // ---------------------------------------------------------------------
  // Cleaning passes text without fences through

  lemma {:induction false} RemoveJsonFencesConcat(x: string, y: string)
    requires forall i :: 0 <= i < |x| ==> !JsonFenceAt((x + y)[i..])
    ensures RemoveJsonFences(x + y) == x + RemoveJsonFences(y)
    decreases |x|
  {
    if x == [] {
      assert x + y == y;
    } else {
      var s := x + y;
      assert !JsonFenceAt(s) by { assert s[0..] == s; }
      assert RemoveJsonFences(s) == [s[0]] + RemoveJsonFences(s[1..]);
      assert s[1..] == x[1..] + y;
      forall i | 0 <= i < |x[1..]| ensures !JsonFenceAt((x[1..] + y)[i..]) {
        assert (x[1..] + y)[i..] == s[i + 1..];
      }
      RemoveJsonFencesConcat(x[1..], y);
      ConsAssoc(x, RemoveJsonFences(y));
    }
  }

  lemma ConsAssoc(x: string, r: string)
    requires x != []
    ensures [x[0]] + (x[1..] + r) == x + r
  {
    assert x == [x[0]] + x[1..];
  }

  /** Text without a backtick starts no json fence anywhere. */
  lemma NoTickNoFence(x: string, y: string)
    requires '`' !in x
    ensures forall i :: 0 <= i < |x| ==> !JsonFenceAt((x + y)[i..])
  {
    forall i | 0 <= i < |x| ensures !JsonFenceAt((x + y)[i..]) {
      assert (x + y)[i..][0] == x[i];
      assert |(x + y)[i..]| >= 3 ==> (x + y)[i..][..3][0] == x[i];
    }
  }

  /** An untagged fence before a non-letter is not a json fence. */
  lemma PlainFenceKept(z: string)
    requires z != [] && z[0] != '`' && AsciiLower(z[0]) != 'j'
    ensures RemoveJsonFences(Fence + z) == Fence + RemoveJsonFences(z)
  {
    var s := Fence + z;
    assert (Fence + z)[3..] == z;
    assert s[1..] == "``" + z && s[1..][..3] == "``" + [z[0]];
    assert s[2..] == "`" + z;
    assert |s[2..]| >= 3 ==> s[2..][..3][1] == z[0];
    forall i | 0 <= i < 3 ensures !JsonFenceAt((Fence + z)[i..]) {
      assert (Fence + z)[i..] == s[i..];
    }
    RemoveJsonFencesConcat(Fence, z);
  }

  lemma SpanOfEmbeddedObject(x: string, body: string, z: string)
    requires '{' !in x && '}' !in z
    requires |body| >= 2 && body[0] == '{' && body[|body| - 1] == '}'
    ensures JsonSpan(x + body + z) == Some(body)
  {
    var s := x + body + z;
    assert s == x + ['{'] + (body[1..] + z);
    IndexOfConcat(x, '{', body[1..] + z);
    assert s == (x + body[..|body| - 1]) + ['}'] + z;
    LastIndexOfConcat(x + body[..|body| - 1], '}', z);
    assert s[|x|..|x| + |body|] == body;
  }

  lemma StripJsonTagConcat(x: string, y: string)
    requires y != [] && y[0] == '{'
    ensures exists k :: 0 <= k <= |x| && StripJsonTag(x + y) == x[k..] + y
  {
    var s := x + y;
    if StartsWithIgnoringCase(s, "json") {
      assert AsciiLower(s[0]) == 'j' && AsciiLower(s[1]) == 's' && AsciiLower(s[2]) == 'o' && AsciiLower(s[3]) == 'n';
      assert |x| >= 4 by {
        assert AsciiLower(y[0]) == '{';
      }
      assert s[4..] == x[4..] + y;
      TrimStartConcat(x[4..], y);
      var t := TrimStart(x[4..]);
      assert t == x[|x| - |t|..];
    } else {
      assert s == x[0..] + y;
    }
  }

  lemma NoCharInSuffix(s: string, k: int, c: char)
    requires 0 <= k <= |s| && c !in s
    ensures c !in s[k..]
  {
    assert forall i :: 0 <= i < |s| - k ==> s[k..][i] == s[k + i];
  }

  lemma NoCharInPrefix(s: string, k: int, c: char)
    requires 0 <= k <= |s| && c !in s
    ensures c !in s[..k]
  {
    assert forall i :: 0 <= i < k ==> s[..k][i] == s[i];
  }

  /** A JSON object's text as the extraction lemmas need it: braces at
      both ends, no backtick inside. */
  predicate ObjectText(body: string) {
    |body| >= 2 && body[0] == '{' && body[|body| - 1] == '}' && '`' !in body
  }

  /** What may open an object: nothing, a plain fence, or a fence tagged
      json in any case; then whitespace. */
  predicate Opener(fence: string, gap: string) {
    AllWhitespace(gap)
    && ((fence == "" && gap == "") || fence == Fence || (|fence| == 7 && JsonFenceAt(fence)))
  }

  /** What the json-fence removal keeps of an opener. */
  function KeptOpener(fence: string, gap: string): string {
    if fence == Fence then Fence + gap else ""
  }

  lemma TrimAround(pre: string, m: string, post: string)
    requires m != [] && !IsWhitespace(m[0]) && !IsWhitespace(m[|m| - 1])
    ensures Trim(pre + m + post) == TrimStart(pre) + m + TrimEnd(post)
  {
    Assoc(pre, m, post);
    TrimStartConcat(pre, m + post);
    Assoc(TrimStart(pre), m, post);
    TrimEndConcat(TrimStart(pre) + m, post);
  }

  lemma JsonFencesSkipPlain(x: string, rest: string)
    requires '`' !in x
    ensures RemoveJsonFences(x + rest) == x + RemoveJsonFences(rest)
  {
    NoTickNoFence(x, rest);
    RemoveJsonFencesConcat(x, rest);
  }

  lemma {:induction false} FencesSkipPlain(x: string, rest: string)
    requires '`' !in x
    ensures RemoveFences(x + rest) == x + RemoveFences(rest)
    decreases |x|
  {
    if x == [] {
      assert x + rest == rest;
    } else {
      var s := x + rest;
      assert s[0] == x[0];
      assert !FenceAt(s) by { assert |s| >= 3 ==> s[..3][0] == s[0]; }
      assert s[1..] == x[1..] + rest;
      assert '`' !in x[1..] by { assert forall k :: 0 <= k < |x| - 1 ==> x[1..][k] == x[k + 1]; }
      FencesSkipPlain(x[1..], rest);
      ConsAssoc(x, RemoveFences(rest));
    }
  }

  lemma JsonFencesOnPlainFence(gap: string, rest: string)
    requires AllWhitespace(gap) && rest != [] && rest[0] == '{'
    ensures RemoveJsonFences(Fence + gap + rest) == Fence + gap + RemoveJsonFences(rest)
  {
    var z := gap + rest;
    Assoc(Fence, gap, rest);
    assert z[0] == (if gap == [] then '{' else gap[0]);
    PlainFenceKept(z);
    JsonFencesSkipPlain(gap, rest);
    Assoc(Fence, gap, RemoveJsonFences(rest));
  }

  lemma JsonFencesOnTaggedFence(fence: string, gap: string, rest: string)
    requires |fence| == 7 && JsonFenceAt(fence) && AllWhitespace(gap) && rest != [] && rest[0] == '{'
    ensures RemoveJsonFences(fence + gap + rest) == RemoveJsonFences(rest)
  {
    var s := fence + (gap + rest);
    Assoc(fence, gap, rest);
    assert s[..7] == fence && s[7..] == gap + rest;
    assert JsonFenceAt(s) by {
      assert s[..3] == fence[..3];
      assert forall i :: 0 <= i < 4 ==> s[3..][i] == fence[3..][i];
    }
    TrimStartConcat(gap, rest);
    TrimStartBlank(gap);
  }

  lemma JsonFencesOnOpener(fence: string, gap: string, rest: string)
    requires Opener(fence, gap) && rest != [] && rest[0] == '{'
    ensures RemoveJsonFences(fence + gap + rest) == KeptOpener(fence, gap) + RemoveJsonFences(rest)
  {
    if fence == "" {
      assert fence + gap + rest == rest;
    } else if fence == Fence {
      JsonFencesOnPlainFence(gap, rest);
    } else {
      JsonFencesOnTaggedFence(fence, gap, rest);
    }
  }

  lemma FencesOnKeptOpener(fence: string, gap: string, rest: string)
    requires Opener(fence, gap) && rest != [] && rest[0] == '{'
    ensures RemoveFences(KeptOpener(fence, gap) + rest) == RemoveFences(rest)
  {
    if fence == Fence {
      var s := Fence + gap + rest;
      assert s[..3] == Fence && s[3..] == gap + rest;
      TrimStartConcat(gap, rest);
      TrimStartBlank(gap);
    } else {
      assert KeptOpener(fence, gap) + rest == rest;
    }
  }

  /** Both fence removals on a trimmed reply that holds one object: the
      opener goes, the text on either side of the object stays. */
  lemma FencesAroundObject(P: string, fence: string, gap: string, body: string, Q: string)
    requires Opener(fence, gap) && ObjectText(body) && '`' !in P
    ensures RemoveFences(RemoveJsonFences(P + fence + gap + body + Q))
         == P + body + RemoveFences(RemoveJsonFences(Q))
  {
    var Q1 := RemoveJsonFences(Q);
    JsonFencesAroundObject(P, fence, gap, body, Q);
    PlainFencesAroundObject(P, fence, gap, body, Q1);
    assert P + (body + RemoveFences(Q1)) == P + body + RemoveFences(Q1);
  }

  /** The json-fence removal: the tagged opener goes, the rest stays. */
  lemma JsonFencesAroundObject(P: string, fence: string, gap: string, body: string, Q: string)
    requires Opener(fence, gap) && ObjectText(body) && '`' !in P
    ensures RemoveJsonFences(P + fence + gap + body + Q)
         == P + (KeptOpener(fence, gap) + (body + RemoveJsonFences(Q)))
  {
    assert P + fence + gap + body + Q == P + (fence + gap + (body + Q));
    JsonFencesSkipPlain(P, fence + gap + (body + Q));
    JsonFencesOnOpener(fence, gap, body + Q);
    JsonFencesSkipPlain(body, Q);
  }

  /** The plain-fence removal after it: the plain opener goes too. */
  lemma PlainFencesAroundObject(P: string, fence: string, gap: string, body: string, Q1: string)
    requires Opener(fence, gap) && ObjectText(body) && '`' !in P
    ensures RemoveFences(P + (KeptOpener(fence, gap) + (body + Q1))) == P + (body + RemoveFences(Q1))
  {
    FencesSkipPlain(P, KeptOpener(fence, gap) + (body + Q1));
    FencesOnKeptOpener(fence, gap, body + Q1);
    FencesSkipPlain(body, Q1);
  }

  /** Fence removal adds no character. */
  lemma FencesKeepAbsent(Q: string, c: char)
    requires c !in Q
    ensures c !in RemoveFences(RemoveJsonFences(Q))
  {
    var Q1 := RemoveJsonFences(Q);
    RemoveFencesDeletes(Q1);
    RemoveJsonFencesDeletes(Q);
    assert multiset(RemoveFences(Q1))[c] <= multiset(Q)[c] == 0;
  }

  /** Tag removal and span location on the cleaned text. */
  lemma SpanAfterTag(P: string, body: string, Q: string)
    requires ObjectText(body) && '{' !in P && '}' !in Q
    ensures JsonSpan(StripJsonTag(P + body + RemoveFences(RemoveJsonFences(Q)))) == Some(body)
  {
    FencesKeepAbsent(Q, '}');
    SpanAfterTagOf(P, body, RemoveFences(RemoveJsonFences(Q)));
  }

  lemma SpanAfterTagOf(P: string, body: string, R: string)
    requires ObjectText(body) && '{' !in P && '}' !in R
    ensures JsonSpan(StripJsonTag(P + body + R)) == Some(body)
  {
    Assoc(P, body, R);
    StripJsonTagConcat(P, body + R);
    var k :| 0 <= k <= |P| && StripJsonTag(P + (body + R)) == P[k..] + (body + R);
    NoCharInSuffix(P, k, '{');
    Assoc(P[k..], body, R);
    SpanOfEmbeddedObject(P[k..], body, R);
  }

  lemma Assoc(a: string, b: string, c: string)
    ensures a + b + c == a + (b + c)
  {
  }

  lemma Regroup(a: string, b: string, c: string, d: string, e: string)
    ensures a + (b + c + d) + e == a + b + c + d + e
  {
  }

  lemma OpenedObjectEnds(fence: string, gap: string, body: string)
    requires Opener(fence, gap) && ObjectText(body)
    ensures var m := fence + gap + body;
      m != [] && !IsWhitespace(m[0]) && !IsWhitespace(m[|m| - 1])
  {
    var m := fence + gap + body;
    assert m[|m| - 1] == body[|body| - 1];
    if fence == "" {
      assert m == body;
    } else {
      assert m[0] == fence[0] == Fence[0];
    }
  }

  /** The extracted span of a reply that holds one object, bare or in a
      code fence (``` with or without a json tag): the object exactly.
      The text before it has no backtick and no `{`, the text after it no
      `}`, and the object itself no backtick. */
  lemma ExtractsEmbeddedObject(pre: string, fence: string, gap: string, body: string, post: string)
    requires Opener(fence, gap) && ObjectText(body)
    requires '`' !in pre && '{' !in pre && '}' !in post
    ensures Extract(pre + fence + gap + body + post) == Some(body)
  {
    var m := fence + gap + body;
    OpenedObjectEnds(fence, gap, body);
    var s := pre + fence + gap + body + post;
    Regroup(pre, fence, gap, body, post);
    TrimAround(pre, m, post);
    var P, Q := TrimStart(pre), TrimEnd(post);
    NoCharInSuffix(pre, LeadingBlank(pre), '`');
    NoCharInSuffix(pre, LeadingBlank(pre), '{');
    NoCharInPrefix(post, KeptLength(post), '}');
    var t := Trim(s);
    Regroup(P, fence, gap, body, Q);
    FencesAroundObject(P, fence, gap, body, Q);
    assert RemoveFences(RemoveJsonFences(t)) == P + body + RemoveFences(RemoveJsonFences(Q));
    SpanAfterTag(P, body, Q);
  }

  // ---------------------------------------------------------------------
  // Conversion result

  /** When the parsed object has the three fields truthy, the strict path
      decides: trimmed strings, and the normalised safety level. */
  lemma StrictPathDecides(parse: string -> Option<JsonObject>, content: string, obj: JsonObject)
    requires ParsedObject(parse, content) == Some(obj)
    requires Truthy(Member(obj, "command")) && Truthy(Member(obj, "explanation")) && Truthy(Member(obj, "safety"))
    ensures ParseResponse(parse, content)
         == Ok(ShellCommandResult(Trim(ToJsString(obj["command"])), Trim(ToJsString(obj["explanation"])),
                                  NormalizeSafety(obj["safety"])))
  {
  }

  /** A command made only of whitespace passes the truthiness check and
      comes back as the empty string. */
  lemma BlankCommandComesBackEmpty(parse: string -> Option<JsonObject>, content: string, obj: JsonObject, c: string)
    requires ParsedObject(parse, content) == Some(obj)
    requires Member(obj, "command") == Some(JString(c)) && c != [] && AllWhitespace(c)
    requires Truthy(Member(obj, "explanation")) && Truthy(Member(obj, "safety"))
    ensures ParseResponse(parse, content).Ok? && ParseResponse(parse, content).value.command == ""
  {
    assert Truthy(Member(obj, "command"));
    TrimEmptyIffBlank(c);
  }

  /** Safety is never raised above caution by the parser: a level other
      than caution is exactly the one the parsed object named. */
  lemma SafetyComesFromModel(parse: string -> Option<JsonObject>, content: string)
    requires ParseResponse(parse, content).Ok?
    ensures var level := ParseResponse(parse, content).value.safety;
      level != Caution ==>
        ParsedObject(parse, content).Some?
        && Member(ParsedObject(parse, content).value, "safety") == Some(JString(level.Name()))
  {
  }

  /** What the recovery path reports: safety caution, and a command and an
      explanation that are not empty, hold no quote, and each occur in the
      reply quoted after their key, its colon and optional whitespace. */
  lemma RecoveredFieldsComeFromReply(parse: string -> Option<JsonObject>, content: string)
    requires StrictParse(parse, content).None? && ParseResponse(parse, content).Ok?
    ensures var r := ParseResponse(parse, content).value;
      r.safety == Caution
      && r.command != [] && '"' !in r.command
      && (exists k, i :: 0 <= k <= |content| && QuotedRunAt(content[k..], FieldPrefix("command"), i, r.command))
      && r.explanation != [] && '"' !in r.explanation
      && (exists k, i :: 0 <= k <= |content| && QuotedRunAt(content[k..], FieldPrefix("explanation"), i, r.explanation))
  {
    FoundFieldOccurs(content, "command");
    FoundFieldOccurs(content, "explanation");
  }

  lemma FoundFieldOccurs(s: string, key: string)
    requires FindField(s, key).Some?
    ensures var v := FindField(s, key).value;
      v != [] && '"' !in v && exists k, i :: 0 <= k <= |s| && QuotedRunAt(s[k..], FieldPrefix(key), i, v)
  {
    var k := FirstMatchFrom(s, key, 0);
    MatchFieldSound(s[k..], key);
  }

  /** A reply with neither a brace nor a quote fails with the error that
      shows its first 200 characters. */
  lemma NoBraceNoQuoteFails(parse: string -> Option<JsonObject>, content: string)
    requires '{' !in content && '"' !in content
    ensures ParseResponse(parse, content) == Err(ParseFailure(content))
  {
    CleanOnlyDeletes(content);
    var c := Clean(content);
    assert '{' !in c by {
      assert multiset(c)['{'] <= multiset(content)['{'];
    }
    assert Extract(content).None?;
    NoQuoteNoMatch(content, "command");
    NoQuoteNoMatch(content, "explanation");
  }

  lemma NoQuoteNoMatch(s: string, key: string)
    requires '"' !in s
    ensures FindField(s, key).None?
  {
    var p := FieldPrefix(key);
    assert p[0] == '"';
    forall k | 0 <= k <= |s| ensures !StartsWith(s[k..], p) {
      assert k < |s| ==> s[k..][0] == s[k];
    }
  }

  /** A reply as the model typically writes it (a sentence, then the
      object, bare or fenced): when the object parses with the three fields
      truthy, the result is those fields, command and explanation trimmed. */
  lemma EmbeddedReplyParses(parse: string -> Option<JsonObject>, pre: string, fence: string, gap: string,
                            body: string, post: string, obj: JsonObject)
    requires Opener(fence, gap) && ObjectText(body)
    requires '`' !in pre && '{' !in pre && '}' !in post
    requires parse(body) == Some(obj)
    requires Truthy(Member(obj, "command")) && Truthy(Member(obj, "explanation")) && Truthy(Member(obj, "safety"))
    ensures ParseResponse(parse, pre + fence + gap + body + post)
         == Ok(ShellCommandResult(Trim(ToJsString(obj["command"])), Trim(ToJsString(obj["explanation"])),
                                  NormalizeSafety(obj["safety"])))
  {
    ExtractsEmbeddedObject(pre, fence, gap, body, post);
    StrictPathDecides(parse, pre + fence + gap + body + post, obj);
  }

  // ---------------------------------------------------------------------
  // Analyses

  /** Without a parsable object both analysis parsers return their fixed
      fallback, with no fix and no alternatives. */
  lemma UnparsableAnalysisFallsBack(parse: string -> Option<JsonObject>, content: string)
    requires ParsedObject(parse, content).None?
    ensures ParseAnalysisResponse(parse, content) == CommandAnalysis(JString(FailureAnalysisFallback), None, [], None)
    ensures ParseCommandAnalysisResponse(parse, content) == CommandAnalysis(JString(CommandAnalysisFallback), None, [], None)
  {
  }

  /** When the object names an analysis, the two parsers agree on every
      field but `explanation`, which only the second passes through. */
  lemma AnalysisParsersAgree(parse: string -> Option<JsonObject>, content: string)
    requires ParsedObject(parse, content).Some? && Truthy(Member(ParsedObject(parse, content).value, "analysis"))
    ensures ParseAnalysisResponse(parse, content)
         == ParseCommandAnalysisResponse(parse, content).(explanation := None)
  {
  }

  /** A reply that holds one object, bare or fenced, parses to that object. */
  lemma EmbeddedObjectParses(parse: string -> Option<JsonObject>, pre: string, fence: string, gap: string,
                             body: string, post: string)
    requires Opener(fence, gap) && ObjectText(body)
    requires '`' !in pre && '{' !in pre && '}' !in post
    ensures ParsedObject(parse, pre + fence + gap + body + post) == parse(body)
  {
    ExtractsEmbeddedObject(pre, fence, gap, body, post);
  }

  /** A reply whose object holds only an analysis: that analysis, no fix,
      no alternatives, no explanation. */
  lemma AnalysisOnlyReply(parse: string -> Option<JsonObject>, content: string, a: string)
    requires ParsedObject(parse, content) == Some(map["analysis" := JString(a)]) && a != ""
    ensures ParseCommandAnalysisResponse(parse, content) == CommandAnalysis(JString(a), None, [], None)
  {
    var obj := map["analysis" := JString(a)];
    assert Member(obj, "analysis") == Some(JString(a));
    assert "suggestedFix" !in obj && "alternatives" !in obj && "explanation" !in obj;
  }
}
