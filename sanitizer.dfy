/**
 * The allow-list HTML sanitiser for breach descriptions (`HibpSanitizer`).
 * The HTML parser is an input: the sanitiser sees the stream of start-tag,
 * end-tag and text events it produces (with character references already
 * decoded) and appends one output chunk per event it keeps.
 */
module Sanitizer {
  import opened Wrappers
  import opened Text

  /** The tags kept, compared lower-cased. */
  const AllowedTags: set<string> := {"a", "strong", "b", "em", "i", "br", "p", "ul", "ol", "li"}

  /** The attributes kept per tag: only `a` keeps any. */
  function AllowedAttrs(tag: string): set<string>
  {
    if tag == "a" then {"href", "target", "rel"} else {}
  }

  // ---------------------------------------------------------------------------
  // html.escape(s, quote=True)
  // ---------------------------------------------------------------------------

  function EscapeChar(c: char): string
  {
    if c == '&' then "&amp;"
    else if c == '<' then "&lt;"
    else if c == '>' then "&gt;"
    else if c == '"' then "&quot;"
    else if c == '\'' then "&#x27;"
    else [c]
  }

  /** `html.escape(s)`: the result holds none of the five special characters raw (an '&' only opens an entity). */
  function Escape(s: string): (r: string)
    ensures '<' !in r && '>' !in r && '"' !in r && '\'' !in r
  {
    if s == [] then "" else EscapeChar(s[0]) + Escape(s[1..])
  }

  /** The inverse of Escape, for the five entities it writes. */
  function Unescape(s: string): string
    decreases |s|
  {
    if s == [] then ""
    else if StartsWith(s, "&amp;") then "&" + Unescape(s[5..])
    else if StartsWith(s, "&lt;") then "<" + Unescape(s[4..])
    else if StartsWith(s, "&gt;") then ">" + Unescape(s[4..])
    else if StartsWith(s, "&quot;") then "\"" + Unescape(s[6..])
    else if StartsWith(s, "&#x27;") then "'" + Unescape(s[6..])
    else [s[0]] + Unescape(s[1..])
  }

  /** Unescaping an escaped character gives the character back and resumes after its entity. */
  lemma UnescapeChar(c: char, t: string)
    ensures Unescape(EscapeChar(c) + t) == [c] + Unescape(t)
  {
    var e := EscapeChar(c);
    assert (e + t)[|e|..] == t;
    assert (e + t)[..|e|] == e;
    if c == '&' {
      assert (e + t)[1] == 'a';
      assert StartsWith(e + t, "&amp;");
    } else if c == '<' {
      assert (e + t)[1] == 'l';
      assert StartsWith(e + t, "&lt;");
    } else if c == '>' {
      assert (e + t)[1] == 'g';
      assert StartsWith(e + t, "&gt;");
    } else if c == '"' {
      assert (e + t)[1] == 'q';
      assert StartsWith(e + t, "&quot;");
    } else if c == '\'' {
      assert (e + t)[1] == '#';
      assert StartsWith(e + t, "&#x27;");
    } else {
      assert (e + t)[0] == c;
    }
  }

  /** Escaping loses nothing: the text is recovered from its escaped form. */
  lemma {:induction false} EscapeRoundTrip(s: string)
    ensures Unescape(Escape(s)) == s
  {
    if s != [] {
      EscapeRoundTrip(s[1..]);
      UnescapeChar(s[0], Escape(s[1..]));
      assert s == [s[0]] + s[1..];
    }
  }

  // ---------------------------------------------------------------------------
  // Events and what each one emits
  // ---------------------------------------------------------------------------

  /** An attribute as the parser reports it; `None` is an attribute written without a value. */
  type Attr = (string, Option<string>)

  /** The parser's callbacks: a `<tag/>` calls the start then the end handler; comments and declarations reach no handler here. */
  datatype Event =
    | StartTag(tag: string, attrs: seq<Attr>)
    | StartEndTag(tag: string, attrs: seq<Attr>)
    | EndTag(tag: string)
    | Data(text: string)
    | Other

  /** One attribute of a kept tag: skipped, kept as `name="value"`, or the AttributeError `None.startswith` / `escape(None)` raises. */
  datatype AttrStep = Skip | Keep(chunk: string) | Raise

  function AttrChunk(name: string, value: string): string
  {
    name + "=\"" + Escape(value) + "\""
  }

  predicate WebUrl(value: string)
  {
    StartsWith(value, "http://") || StartsWith(value, "https://")
  }

  function StepAttr(tag: string, attr: Attr): (r: AttrStep)
    ensures r.Keep? <==> Lower(attr.0) in AllowedAttrs(tag) && attr.1.Some?
                         && (Lower(attr.0) == "href" ==> WebUrl(attr.1.value))
    ensures r.Keep? ==> r.chunk == AttrChunk(Lower(attr.0), attr.1.value)
    ensures r.Raise? <==> Lower(attr.0) in AllowedAttrs(tag) && attr.1.None?
  {
    var name := Lower(attr.0);
    if name !in AllowedAttrs(tag) then Skip
    else if attr.1.None? then Raise
    else if name == "href" && !WebUrl(attr.1.value) then Skip
    else Keep(AttrChunk(name, attr.1.value))
  }

  /** `safe_attrs` after the attribute loop; `None` when an attribute raised. */
  function SafeAttrs(tag: string, attrs: seq<Attr>): Option<seq<string>>
    decreases |attrs|
  {
    if attrs == [] then Some([])
    else
      var prev := SafeAttrs(tag, attrs[..|attrs| - 1]);
      var step := StepAttr(tag, attrs[|attrs| - 1]);
      if prev.None? || step.Raise? then None
      else if step.Skip? then prev
      else Some(prev.value + [step.chunk])
  }

  /** An attribute that raises stops the loop for good. */
  lemma {:induction false} SafeAttrsRaiseStays(tag: string, attrs: seq<Attr>, j: nat)
    requires j <= |attrs| && SafeAttrs(tag, attrs[..j]) == None
    ensures SafeAttrs(tag, attrs) == None
    decreases |attrs| - j
  {
    if j < |attrs| {
      assert attrs[..j + 1][..j] == attrs[..j];
      SafeAttrsRaiseStays(tag, attrs, j + 1);
    } else {
      assert attrs[..j] == attrs;
    }
  }

  /**
   * The attribute loop keeps exactly the attributes StepAttr keeps, in order,
   * and raises exactly when one of them raises.
   */
  lemma SafeAttrsExact(tag: string, attrs: seq<Attr>)
    ensures SafeAttrs(tag, attrs).None? <==> exists k :: 0 <= k < |attrs| && StepAttr(tag, attrs[k]).Raise?
    ensures SafeAttrs(tag, attrs).Some? ==>
              (forall c :: c in SafeAttrs(tag, attrs).value <==>
                           exists k :: 0 <= k < |attrs| && StepAttr(tag, attrs[k]) == Keep(c))
  {
    var steps := Steps(tag, attrs);
    SafeAttrsSteps(tag, attrs);
    KeptChunksRaiseIff(steps);
    if exists k :: 0 <= k < |attrs| && StepAttr(tag, attrs[k]).Raise? {
      var k :| 0 <= k < |attrs| && StepAttr(tag, attrs[k]).Raise?;
      assert steps[k].Raise?;
    }
    if SafeAttrs(tag, attrs).Some? {
      KeptChunksKeepIff(steps);
      forall c | exists k :: 0 <= k < |attrs| && StepAttr(tag, attrs[k]) == Keep(c)
        ensures c in SafeAttrs(tag, attrs).value
      {
        var k :| 0 <= k < |attrs| && StepAttr(tag, attrs[k]) == Keep(c);
        assert steps[k] == Keep(c);
      }
    }
  }

  /** Each attribute classified on its own, in order. */
  function Steps(tag: string, attrs: seq<Attr>): (r: seq<AttrStep>)
    ensures |r| == |attrs| && forall k :: 0 <= k < |attrs| ==> r[k] == StepAttr(tag, attrs[k])
  {
    seq(|attrs|, k requires 0 <= k < |attrs| => StepAttr(tag, attrs[k]))
  }

  /** The attribute loop over classified attributes: the kept chunks in order, None once one raises. */
  function KeptChunks(steps: seq<AttrStep>): Option<seq<string>>
  {
    if steps == [] then Some([])
    else
      var prev := KeptChunks(steps[..|steps| - 1]);
      var step := steps[|steps| - 1];
      if prev.None? || step.Raise? then None
      else if step.Skip? then prev
      else Some(prev.value + [step.chunk])
  }

  lemma StepsPrefix(tag: string, attrs: seq<Attr>, n: nat)
    requires n <= |attrs|
    ensures Steps(tag, attrs[..n]) == Steps(tag, attrs)[..n]
  {
  }

  lemma {:induction false} SafeAttrsSteps(tag: string, attrs: seq<Attr>)
    ensures SafeAttrs(tag, attrs) == KeptChunks(Steps(tag, attrs))
    decreases |attrs|
  {
    if attrs != [] {
      var n := |attrs| - 1;
      SafeAttrsSteps(tag, attrs[..n]);
      StepsPrefix(tag, attrs, n);
    }
  }

  lemma {:induction false} KeptChunksRaiseIff(steps: seq<AttrStep>)
    ensures KeptChunks(steps).None? <==> exists k :: 0 <= k < |steps| && steps[k].Raise?
  {
    if steps != [] {
      var init := steps[..|steps| - 1];
      KeptChunksRaiseIff(init);
      if exists k :: 0 <= k < |init| && init[k].Raise? {
        var k :| 0 <= k < |init| && init[k].Raise?;
        assert steps[k] == init[k];
      }
      if exists k :: 0 <= k < |steps| && steps[k].Raise? {
        var k :| 0 <= k < |steps| && steps[k].Raise?;
        if k < |init| {
          assert init[k] == steps[k];
        }
      }
    }
  }

  lemma {:induction false} KeptChunksKeepIff(steps: seq<AttrStep>)
    requires KeptChunks(steps).Some?
    ensures forall c :: c in KeptChunks(steps).value <==> exists k :: 0 <= k < |steps| && steps[k] == Keep(c)
  {
    if steps != [] {
      var init, last := steps[..|steps| - 1], steps[|steps| - 1];
      assert KeptChunks(init).Some?;
      KeptChunksKeepIff(init);
      var prev := KeptChunks(init).value;
      forall c
        ensures c in KeptChunks(steps).value <==> exists k :: 0 <= k < |steps| && steps[k] == Keep(c)
      {
        if c in KeptChunks(steps).value {
          if c in prev {
            var k :| 0 <= k < |init| && init[k] == Keep(c);
            assert steps[k] == init[k];
          } else {
            assert steps[|steps| - 1] == Keep(c);
          }
        }
        if exists k :: 0 <= k < |steps| && steps[k] == Keep(c) {
          var k :| 0 <= k < |steps| && steps[k] == Keep(c);
          if k < |init| {
            assert init[k] == steps[k];
            assert c in prev;
          } else {
            assert last == Keep(c);
          }
        }
      }
    }
  }

  /** `any(a.startswith(prefix) for a in safe)`. */
  predicate AnyStartsWith(safe: seq<string>, prefix: string)
  {
    exists k :: 0 <= k < |safe| && StartsWith(safe[k], prefix)
  }

  /** The link defaults: target and rel are added only when the link does not already carry one. */
  function LinkDefaults(safe: seq<string>): (r: seq<string>)
    ensures AnyStartsWith(r, "target=") && AnyStartsWith(r, "rel=")
    ensures safe <= r && |r| <= |safe| + 2
    ensures AnyStartsWith(safe, "target=") && AnyStartsWith(safe, "rel=") ==> r == safe
  {
    var withTarget := if AnyStartsWith(safe, "target=") then safe else safe + ["target=\"_blank\""];
    assert AnyStartsWith(withTarget, "target=") by {
      if !AnyStartsWith(safe, "target=") {
        assert StartsWith(withTarget[|safe|], "target=");
      }
    }
    var withRel := if AnyStartsWith(withTarget, "rel=") then withTarget else withTarget + ["rel=\"noopener noreferrer\""];
    assert AnyStartsWith(withRel, "target=") by {
      var k :| 0 <= k < |withTarget| && StartsWith(withTarget[k], "target=");
      assert withRel[k] == withTarget[k];
    }
    assert AnyStartsWith(withRel, "rel=") by {
      if !AnyStartsWith(withTarget, "rel=") {
        assert StartsWith(withRel[|withTarget|], "rel=");
      }
    }
    withRel
  }

  /** What a handler emits: nothing, one chunk, or an exception. */
  datatype Emit = Nothing | Chunk(text: string) | Raises

  function Emitted(e: Emit): seq<string>
  {
    if e.Chunk? then [e.text] else []
  }

  /** `<tag attrs>` with the attributes space-separated. */
  function OpenTag(tag: string, safe: seq<string>): string
  {
    "<" + tag + (if safe == [] then "" else " " + Join(safe, ' ')) + ">"
  }

  /** `handle_starttag(tag, attrs)`. */
  function StartChunk(tag: string, attrs: seq<Attr>): Emit
  {
    var t := Lower(tag);
    if t !in AllowedTags then Nothing
    else if t == "br" then Chunk("<br>")
    else
      var safe := SafeAttrs(t, attrs);
      if safe.None? then Raises
      else Chunk(OpenTag(t, if t == "a" then LinkDefaults(safe.value) else safe.value))
  }

  /** `handle_endtag(tag)`. */
  function EndChunk(tag: string): Emit
  {
    var t := Lower(tag);
    if t !in AllowedTags || t == "br" then Nothing else Chunk("</" + t + ">")
  }

  /**
   * The start-tag handler: a tag outside the allow-list emits nothing, `br`
   * emits exactly "<br>", the other allowed tags other than `a` are emitted
   * bare, and an `a` is emitted with its kept attributes plus the defaults.
   */
  lemma StartChunkCases(tag: string, attrs: seq<Attr>)
    ensures Lower(tag) !in AllowedTags ==> StartChunk(tag, attrs) == Nothing
    ensures Lower(tag) == "br" ==> StartChunk(tag, attrs) == Chunk("<br>")
    ensures Lower(tag) in AllowedTags - {"a", "br"} ==> StartChunk(tag, attrs) == Chunk("<" + Lower(tag) + ">")
  {
    var t := Lower(tag);
    if t in AllowedTags && t != "br" && t != "a" {
      NoAttrsKept(t, attrs);
      assert StartChunk(tag, attrs) == Chunk(OpenTag(t, []));
    }
  }

  /** An emitted `<a>` carries its kept attributes followed by the target and rel defaults where missing. */
  lemma StartChunkLink(tag: string, attrs: seq<Attr>)
    requires Lower(tag) == "a" && StartChunk(tag, attrs).Chunk?
    ensures var safe := LinkDefaults(SafeAttrs("a", attrs).value);
            && StartChunk(tag, attrs).text == "<a " + Join(safe, ' ') + ">"
            && AnyStartsWith(safe, "target=") && AnyStartsWith(safe, "rel=")
  {
    var safe := LinkDefaults(SafeAttrs("a", attrs).value);
    assert safe != [];
    assert StartChunk(tag, attrs) == Chunk(OpenTag("a", safe));
  }

  /**
   * A `rel` the link already carries is kept as given, and no
   * `rel="noopener noreferrer"` is added: only a missing target is filled in.
   */
  lemma SuppliedRelKept(attrs: seq<Attr>, k: nat, v: string)
    requires k < |attrs| && attrs[k] == ("rel", Some(v)) && SafeAttrs("a", attrs).Some?
    ensures var safe := SafeAttrs("a", attrs).value;
            && AttrChunk("rel", v) in LinkDefaults(safe)
            && LinkDefaults(safe) == (if AnyStartsWith(safe, "target=") then safe else safe + ["target=\"_blank\""])
  {
    var safe := SafeAttrs("a", attrs).value;
    assert Lower("rel") == "rel" by {
      assert Lower("rel")[0] == 'r' && Lower("rel")[1] == 'e' && Lower("rel")[2] == 'l';
    }
    assert StepAttr("a", attrs[k]) == Keep(AttrChunk("rel", v));
    SafeAttrsExact("a", attrs);
    assert AttrChunk("rel", v) in safe;
    RelChunkStartsRel(v);
    LinkDefaultsWithRel(safe);
  }

  lemma RelChunkStartsRel(v: string)
    ensures StartsWith(AttrChunk("rel", v), "rel=")
  {
    assert AttrChunk("rel", v) == "rel=" + ("\"" + Escape(v) + "\"");
  }

  /** When a rel is already present, LinkDefaults adds at most the target. */
  lemma LinkDefaultsWithRel(safe: seq<string>)
    requires exists j :: 0 <= j < |safe| && StartsWith(safe[j], "rel=")
    ensures LinkDefaults(safe) == (if AnyStartsWith(safe, "target=") then safe else safe + ["target=\"_blank\""])
  {
    var j :| 0 <= j < |safe| && StartsWith(safe[j], "rel=");
    if !AnyStartsWith(safe, "target=") {
      assert (safe + ["target=\"_blank\""])[j] == safe[j];
    }
  }

  /** A tag other than `a` keeps no attribute and never raises. */
  lemma {:induction false} NoAttrsKept(tag: string, attrs: seq<Attr>)
    requires tag != "a"
    ensures SafeAttrs(tag, attrs) == Some([])
    decreases |attrs|
  {
    if attrs != [] {
      NoAttrsKept(tag, attrs[..|attrs| - 1]);
    }
  }

  /** The chunks a stream of events leaves in `self.chunks`; `None` when a handler raised. */
  function EventChunks(events: seq<Event>): Option<seq<string>>
    decreases |events|
  {
    if events == [] then Some([])
    else
      var prev := EventChunks(events[..|events| - 1]);
      var e := events[|events| - 1];
      if prev.None? || StartRaises(e) then None
      else Some(prev.value + EventOutput(e))
  }

  predicate StartRaises(e: Event)
  {
    (e.StartTag? || e.StartEndTag?) && StartChunk(e.tag, e.attrs).Raises?
  }

  function EventOutput(e: Event): seq<string>
  {
    match e
    case StartTag(tag, attrs) => Emitted(StartChunk(tag, attrs))
    case StartEndTag(tag, attrs) => Emitted(StartChunk(tag, attrs)) + Emitted(EndChunk(tag))
    case EndTag(tag) => Emitted(EndChunk(tag))
    case Data(text) => [Escape(text)]
    case Other => []
  }

  /** The output of a stream is the output of its parts, in event order. */
  lemma {:induction false} EventChunksAppend(xs: seq<Event>, ys: seq<Event>)
    requires EventChunks(xs).Some? && EventChunks(ys).Some?
    ensures EventChunks(xs + ys) == Some(EventChunks(xs).value + EventChunks(ys).value)
    decreases |ys|
  {
    if ys == [] {
      assert xs + ys == xs;
      assert EventChunks(xs).value + EventChunks(ys).value == EventChunks(xs).value;
    } else {
      var init, last := ys[..|ys| - 1], ys[|ys| - 1];
      SplitLast(xs, ys);
      assert EventChunks(init).Some? && !StartRaises(last);
      EventChunksAppend(xs, init);
      var a, b, c := EventChunks(xs).value, EventChunks(init).value, EventOutput(last);
      assert EventChunks(ys).value == b + c;
      assert EventChunks(xs + ys) == Some((a + b) + c);
      assert (a + b) + c == a + (b + c);
    }
  }

  lemma SplitLast<T>(xs: seq<T>, ys: seq<T>)
    requires ys != []
    ensures (xs + ys)[..|xs + ys| - 1] == xs + ys[..|ys| - 1]
    ensures (xs + ys)[|xs + ys| - 1] == ys[|ys| - 1]
  {
  }

  /** Text chunks are escaped, so a text event never emits a raw '<' or '>'. */
  lemma DataIsEscaped(text: string)
    ensures EventOutput(Data(text)) == [Escape(text)]
    ensures Unescape(EventOutput(Data(text))[0]) == text
    ensures '<' !in EventOutput(Data(text))[0] && '>' !in EventOutput(Data(text))[0]
  {
    EscapeRoundTrip(text);
  }

  // ---------------------------------------------------------------------------
  // The parser object
  // ---------------------------------------------------------------------------

  class HibpSanitizer {
    var chunks: seq<string>

    constructor()
      ensures chunks == []
    {
      chunks := [];
    }

    /** `handle_starttag`: `raised` stands for the AttributeError an attribute without a value raises. */
    method HandleStartTag(tag: string, attrs: seq<Attr>) returns (raised: bool)
      modifies this
      ensures raised <==> StartChunk(tag, attrs).Raises?
      ensures chunks == old(chunks) + Emitted(StartChunk(tag, attrs))
    {
      var t := Lower(tag);
      if t !in AllowedTags {
        return false;
      }
      if t == "br" {
        chunks := chunks + ["<br>"];
        return false;
      }
      var allowed := AllowedAttrs(t);
      var safe: seq<string> := [];
      var i := 0;
      while i < |attrs|
        invariant 0 <= i <= |attrs|
        invariant SafeAttrs(t, attrs[..i]) == Some(safe)
      {
        assert attrs[..i + 1][..i] == attrs[..i];
        var name := Lower(attrs[i].0);
        var value := attrs[i].1;
        if name in allowed {
          if value.None? {
            SafeAttrsRaiseStays(t, attrs, i + 1);
            return true;
          }
          if !(name == "href" && !WebUrl(value.value)) {
            safe := safe + [AttrChunk(name, value.value)];
          }
        }
        i := i + 1;
      }
      assert attrs[..i] == attrs;
      if t == "a" {
        safe := LinkDefaults(safe);
      }
      chunks := chunks + [OpenTag(t, safe)];
      return false;
    }

    /** `handle_endtag`. */
    method HandleEndTag(tag: string)
      modifies this
      ensures chunks == old(chunks) + Emitted(EndChunk(tag))
    {
      var t := Lower(tag);
      if t !in AllowedTags || t == "br" {
        return;
      }
      chunks := chunks + ["</" + t + ">"];
    }

    /** `handle_data`. */
    method HandleData(text: string)
      modifies this
      ensures chunks == old(chunks) + [Escape(text)]
    {
      chunks := chunks + [Escape(text)];
    }

    /** One parser callback, dispatched on the event. */
    method HandleEvent(e: Event) returns (raised: bool)
      modifies this
      ensures raised <==> StartRaises(e)
      ensures !raised ==> chunks == old(chunks) + EventOutput(e)
    {
      raised := false;
      match e {
        case StartTag(tag, attrs) =>
          raised := HandleStartTag(tag, attrs);
        case StartEndTag(tag, attrs) =>
          raised := HandleStartTag(tag, attrs);
          if !raised {
            HandleEndTag(tag);
          }
        case EndTag(tag) =>
          HandleEndTag(tag);
        case Data(text) =>
          HandleData(text);
        case Other =>
      }
    }

    /** `feed`: the events go to the handlers in order until one raises. */
    method Feed(events: seq<Event>) returns (raised: bool)
      modifies this
      ensures raised <==> EventChunks(events).None?
      ensures !raised ==> chunks == old(chunks) + EventChunks(events).value
    {
      var i := 0;
      while i < |events|
        invariant 0 <= i <= |events|
        invariant EventChunks(events[..i]).Some?
        invariant chunks == old(chunks) + EventChunks(events[..i]).value
      {
        ghost var prev := EventChunks(events[..i]).value;
        var r := HandleEvent(events[i]);
        EventChunksSnoc(events, i);
        if r {
          EventChunksRaiseStays(events, i + 1);
          return true;
        }
        assert chunks == old(chunks) + (prev + EventOutput(events[i]));
        i := i + 1;
      }
      assert events[..i] == events;
      return false;
    }

    /** `get_html`. */
    function GetHtml(): string
      reads this
    {
      Concat(chunks)
    }
  }

  /** One more event: the chunks so far plus its output, unless it raises. */
  lemma EventChunksSnoc(events: seq<Event>, i: nat)
    requires i < |events| && EventChunks(events[..i]).Some?
    ensures StartRaises(events[i]) ==> EventChunks(events[..i + 1]) == None
    ensures !StartRaises(events[i]) ==> EventChunks(events[..i + 1]) == Some(EventChunks(events[..i]).value + EventOutput(events[i]))
  {
    assert events[..i + 1][..i] == events[..i];
  }

  /** Once a handler raises, the rest of the stream changes nothing. */
  lemma {:induction false} EventChunksRaiseStays(events: seq<Event>, j: nat)
    requires j <= |events| && EventChunks(events[..j]) == None
    ensures EventChunks(events) == None
    decreases |events| - j
  {
    if j < |events| {
      assert events[..j + 1][..j] == events[..j];
      EventChunksRaiseStays(events, j + 1);
    } else {
      assert events[..j] == events;
    }
  }

  /** `_sanitize_hibp_html(value)`, where `parse` gives the events the parser produces for a text; `None` is a raise. */
  function SanitizeSpec(value: Option<string>, parse: string -> seq<Event>): Option<string>
  {
    if value.None? || value.value == "" then Some("")
    else
      var out := EventChunks(parse(value.value));
      if out.None? then None else Some(Concat(out.value))
  }

  /** `_sanitize_hibp_html(value)`: a fresh parser fed with the value's events. */
  method SanitizeHibpHtml(value: Option<string>, parse: string -> seq<Event>) returns (html: Option<string>)
    ensures html == SanitizeSpec(value, parse)
  {
    if value.None? || value.value == "" {
      return Some("");
    }
    var events := parse(value.value);
    var parser := new HibpSanitizer();
    var raised := parser.Feed(events);
    if raised {
      return None;
    }
    assert parser.chunks == EventChunks(events).value;
    return Some(parser.GetHtml());
  }

  /** None or empty input gives "" whatever the parser would do. */
  lemma SanitizeEmpty(parse: string -> seq<Event>)
    ensures SanitizeSpec(None, parse) == Some("")
    ensures SanitizeSpec(Some(""), parse) == Some("")
  {
  }

  /** The output is the concatenation, in order, of what each event emits. */
  lemma {:induction false} SanitizeInOrder(value: string, parse: string -> seq<Event>, xs: seq<Event>, ys: seq<Event>)
    requires value != "" && parse(value) == xs + ys
    requires EventChunks(xs).Some? && EventChunks(ys).Some?
    ensures SanitizeSpec(Some(value), parse) == Some(Concat(EventChunks(xs).value) + Concat(EventChunks(ys).value))
  {
    EventChunksAppend(xs, ys);
    ConcatAppend(EventChunks(xs).value, EventChunks(ys).value);
  }
}
