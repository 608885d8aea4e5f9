/** Escaping and decoding of HTML text (web/src/text-card-markdown.ts:140-156).
    Both are chains of whole-string replacements. */
module Html {
  // ----- one global replacement, ASCII letters matched in either case -----

  function Lower(c: char): char { if 'A' <= c <= 'Z' then c - 'A' + 'a' else c }

  predicate Starts(t: string, pattern: string) {
    |pattern| <= |t| && forall i | 0 <= i < |pattern| :: Lower(t[i]) == pattern[i]
  }

  function Replaced(t: string, pattern: string, with: string): string
    requires pattern != ""
    decreases |t|
  {
    if t == "" then ""
    else if Starts(t, pattern) then with + Replaced(t[|pattern|..], pattern, with)
    else [t[0]] + Replaced(t[1..], pattern, with)
  }

  function Escape(t: string): string {
    Replaced(Replaced(Replaced(Replaced(t, "&", "&amp;"), "<", "&lt;"), ">", "&gt;"), "\"", "&quot;")
  }

  function Decode(t: string): string {
    Replaced(Replaced(Replaced(Replaced(Replaced(Replaced(t,
      "&nbsp;", " "), "&quot;", "\""), "&#39;", "'"), "&lt;", "<"), "&gt;", ">"), "&amp;", "&")
  }

  // ----- escaping is one substitution, character by character -----

  function Entity(c: char): string {
    match c
    case '&' => "&amp;"
    case '<' => "&lt;"
    case '>' => "&gt;"
    case '"' => "&quot;"
    case _ => [c]
  }

  const SPECIAL := {'&', '<', '>', '"'}

  /** Every character of `chars` in `t` replaced by its entity. */
  function Encoded(chars: set<char>, t: string): string {
    if t == "" then "" else (if t[0] in chars then Entity(t[0]) else [t[0]]) + Encoded(chars, t[1..])
  }

  lemma {:induction false} Passes(s: string, rest: string, c: char, with: string)
    requires Lower(c) == c && forall i | 0 <= i < |s| :: Lower(s[i]) != c
    ensures Replaced(s + rest, [c], with) == s + Replaced(rest, [c], with)
  {
    if s == "" {
      assert s + rest == rest;
    } else {
      assert (s + rest)[1..] == s[1..] + rest;
      Passes(s[1..], rest, c, with);
    }
  }

  /** One more replacement encodes one more character. */
  lemma {:induction false} EncodesOneMore(chars: set<char>, c: char, t: string)
    requires c in SPECIAL && c !in chars && chars <= SPECIAL
    requires c == '&' ==> chars == {}
    ensures Replaced(Encoded(chars, t), [c], Entity(c)) == Encoded(chars + {c}, t)
  {
    if t != "" {
      var rest := Encoded(chars, t[1..]);
      EncodesOneMore(chars, c, t[1..]);
      if t[0] == c {
        assert ([c] + rest)[1..] == rest && Starts([c] + rest, [c]);
      } else {
        Passes(if t[0] in chars then Entity(t[0]) else [t[0]], rest, c, Entity(c));
      }
    }
  }

  lemma {:induction false} NothingEncoded(chars: set<char>, t: string)
    requires forall c | c in t :: c !in chars
    ensures Encoded(chars, t) == t
  {
    if t != "" {
      NothingEncoded(chars, t[1..]);
    }
  }

  lemma EscapeIsOnePass(t: string)
    ensures Escape(t) == Encoded(SPECIAL, t)
  {
    NothingEncoded({}, t);
    EncodesOneMore({}, '&', t);
    assert {} + {'&'} == {'&'};
    EncodesOneMore({'&'}, '<', t);
    assert {'&'} + {'<'} == {'&', '<'};
    EncodesOneMore({'&', '<'}, '>', t);
    assert {'&', '<'} + {'>'} == {'&', '<', '>'};
    EncodesOneMore({'&', '<', '>'}, '"', t);
    assert {'&', '<', '>'} + {'"'} == SPECIAL;
  }

  // ----- decoding is one left-to-right pass over all six entities at once -----

  datatype Rule = Rule(pattern: string, ch: char)

  const RULES := [
    Rule("&nbsp;", ' '), Rule("&quot;", '"'), Rule("&#39;", '\''),
    Rule("&lt;", '<'), Rule("&gt;", '>'), Rule("&amp;", '&')]

  /** Index of the first rule whose pattern starts `t`, or |rules|. */
  function FirstRule(rules: seq<Rule>, t: string): (k: nat)
    ensures k <= |rules| && (k < |rules| ==> Starts(t, rules[k].pattern))
    ensures forall j | 0 <= j < k :: !Starts(t, rules[j].pattern)
  {
    if rules == [] then 0
    else if Starts(t, rules[0].pattern) then 0
    else
      var k := FirstRule(rules[1..], t);
      assert forall j | 0 < j < |rules| :: rules[j] == rules[1..][j - 1];
      k + 1
  }

  /** A name of an entity holds no ampersand and no character that decoding makes. */
  predicate NameChar(c: char) { 'a' <= c <= 'z' || '0' <= c <= '9' || c == '#' || c == ';' }

  predicate IsEntity(pattern: string) {
    |pattern| > 1 && pattern[0] == '&' && forall i | 1 <= i < |pattern| :: NameChar(pattern[i])
  }

  /** Decoding by these rules makes no character that could belong to an entity. */
  predicate Harmless(rules: seq<Rule>) {
    forall k | 0 <= k < |rules| ::
      IsEntity(rules[k].pattern) && !NameChar(Lower(rules[k].ch)) && rules[k].ch != '&'
  }

  predicate AllEntities(rules: seq<Rule>) { forall k | 0 <= k < |rules| :: IsEntity(rules[k].pattern) }

  function OnePass(rules: seq<Rule>, t: string): string
    requires AllEntities(rules)
    decreases |t|
  {
    if t == "" then "" else
      var k := FirstRule(rules, t);
      if k < |rules| then [rules[k].ch] + OnePass(rules, t[|rules[k].pattern|..])
      else [t[0]] + OnePass(rules, t[1..])
  }

  lemma NoRule(rules: seq<Rule>, t: string)
    requires AllEntities(rules) && t != "" && t[0] != '&'
    ensures FirstRule(rules, t) == |rules|
  {
    forall j | 0 <= j < |rules| ensures !Starts(t, rules[j].pattern) {
      assert Lower(t[0]) != rules[j].pattern[0];
    }
  }

  predicate Name(q: string) { forall i | 0 <= i < |q| :: NameChar(q[i]) }

  lemma StartsTail(t: string, q: string)
    requires q != ""
    ensures Starts(t, q) <==> t != "" && Lower(t[0]) == q[0] && Starts(t[1..], q[1..])
  {
    if t != "" && Lower(t[0]) == q[0] && Starts(t[1..], q[1..]) {
      forall i | 0 <= i < |q| ensures Lower(t[i]) == q[i] {
        if i > 0 {
          assert t[i] == t[1..][i - 1] && q[i] == q[1..][i - 1];
        }
      }
    }
  }

  /** A pass neither makes nor hides the name of an entity. */
  lemma {:induction false} NamesStay(rules: seq<Rule>, t: string, q: string)
    requires Harmless(rules) && Name(q)
    ensures Starts(OnePass(rules, t), q) <==> Starts(t, q)
    ensures Starts(t, q) ==> OnePass(rules, t)[|q|..] == OnePass(rules, t[|q|..])
    decreases |q|
  {
    var out := OnePass(rules, t);
    if q == "" {
      assert t[|q|..] == t && out[|q|..] == out;
    } else if t != "" {
      StartsTail(t, q);
      StartsTail(out, q);
      if FirstRule(rules, t) == |rules| {
        assert out[1..] == OnePass(rules, t[1..]);
        NamesStay(rules, t[1..], q[1..]);
        NamesContinue(rules, t, q);
      } else {
        assert Lower(t[0]) == '&';
      }
    }
  }

  lemma NamesContinue(rules: seq<Rule>, t: string, q: string)
    requires Harmless(rules) && q != "" && t != "" && FirstRule(rules, t) == |rules|
    requires Starts(OnePass(rules, t[1..]), q[1..]) <==> Starts(t[1..], q[1..])
    requires Starts(t[1..], q[1..]) ==> OnePass(rules, t[1..])[|q[1..]|..] == OnePass(rules, t[1..][|q[1..]|..])
    ensures Starts(t, q) ==>
      |OnePass(rules, t)| >= |q| && OnePass(rules, t)[|q|..] == OnePass(rules, t[|q|..])
  {
    StartsTail(t, q);
    if Starts(t, q) {
      var inner := OnePass(rules, t[1..]);
      assert OnePass(rules, t) == [t[0]] + inner;
      assert ([t[0]] + inner)[|q|..] == inner[|q| - 1..];
      assert t[1..][|q| - 1..] == t[|q|..];
    }
  }

  /** Replacing one more entity afterwards is the pass with that rule added. */
  lemma {:induction false} OneMoreRule(rules: seq<Rule>, r: Rule, t: string)
    requires Harmless(rules) && IsEntity(r.pattern)
    ensures AllEntities(rules + [r])
    ensures Replaced(OnePass(rules, t), r.pattern, [r.ch]) == OnePass(rules + [r], t)
    decreases |t|
  {
    if t != "" {
      var k := FirstRule(rules, t);
      LastRule(rules, r, t);
      if k < |rules| {
        var rest := t[|rules[k].pattern|..];
        OneMoreRule(rules, r, rest);
        var out := [rules[k].ch] + OnePass(rules, rest);
        assert out[1..] == OnePass(rules, rest);
        assert Lower(out[0]) != r.pattern[0];
      } else {
        var out := OnePass(rules, t);
        assert out[1..] == OnePass(rules, t[1..]);
        StartsTail(t, r.pattern);
        StartsTail(out, r.pattern);
        NamesStay(rules, t[1..], r.pattern[1..]);
        if Starts(t, r.pattern) {
          OneMoreRule(rules, r, t[|r.pattern|..]);
          assert t[1..][|r.pattern| - 1..] == t[|r.pattern|..];
          assert out[|r.pattern|..] == out[1..][|r.pattern| - 1..];
        } else {
          OneMoreRule(rules, r, t[1..]);
        }
      }
    }
  }

  lemma LastRule(rules: seq<Rule>, r: Rule, t: string)
    ensures FirstRule(rules, t) < |rules| ==> FirstRule(rules + [r], t) == FirstRule(rules, t)
    ensures FirstRule(rules, t) == |rules| ==>
      FirstRule(rules + [r], t) == if Starts(t, r.pattern) then |rules| else |rules| + 1
  {
    var more := rules + [r];
    assert forall j | 0 <= j < |rules| :: more[j] == rules[j];
    assert more[|rules|] == r;
  }

  lemma {:induction false} NoRules(t: string)
    ensures OnePass([], t) == t
  {
    if t != "" {
      NoRules(t[1..]);
    }
  }

  lemma RulesAreEntities()
    ensures AllEntities(RULES) && Harmless(RULES[..5])
  {
    assert IsEntity(RULES[0].pattern) && IsEntity(RULES[1].pattern) && IsEntity(RULES[2].pattern);
    assert IsEntity(RULES[3].pattern) && IsEntity(RULES[4].pattern) && IsEntity(RULES[5].pattern);
  }

  /** The replacements of `rules`, one after the other, the last one last. */
  function Chained(rules: seq<Rule>, t: string): string
    requires AllEntities(rules)
  {
    if rules == [] then t
    else Replaced(Chained(rules[..|rules| - 1], t), rules[|rules| - 1].pattern, [rules[|rules| - 1].ch])
  }

  lemma {:induction false} ChainIsOnePass(rules: seq<Rule>, t: string)
    requires AllEntities(rules) && (rules != [] ==> Harmless(rules[..|rules| - 1]))
    ensures Chained(rules, t) == OnePass(rules, t)
  {
    if rules == [] {
      NoRules(t);
    } else {
      var before := rules[..|rules| - 1];
      ChainIsOnePass(before, t);
      OneMoreRule(before, rules[|rules| - 1], t);
      assert before + [rules[|rules| - 1]] == rules;
    }
  }

  lemma DecodeIsOnePass(t: string)
    ensures AllEntities(RULES) && Decode(t) == OnePass(RULES, t)
  {
    RulesAreEntities();
    ChainIsOnePass(RULES, t);
    DecodeIsChained(t);
  }

  lemma DecodeIsChained(t: string)
    requires AllEntities(RULES)
    ensures Decode(t) == Chained(RULES, t)
  {
    assert RULES[..5][..4] == RULES[..4] && RULES[..4][..3] == RULES[..3];
    assert RULES[..3][..2] == RULES[..2] && RULES[..2][..1] == RULES[..1] && RULES[..1][..0] == [];
    assert Chained(RULES[..1], t) == Replaced(t, "&nbsp;", " ");
    assert Chained(RULES[..2], t) == Replaced(Chained(RULES[..1], t), "&quot;", "\"");
    assert Chained(RULES[..3], t) == Replaced(Chained(RULES[..2], t), "&#39;", "'");
    assert Chained(RULES[..4], t) == Replaced(Chained(RULES[..3], t), "&lt;", "<");
    assert Chained(RULES[..5], t) == Replaced(Chained(RULES[..4], t), "&gt;", ">");
    assert Chained(RULES, t) == Replaced(Chained(RULES[..5], t), "&amp;", "&");
  }

  // ----- the round trip -----

  /** The entity of a special character is matched by its own rule and by no other. */
  lemma OwnRule(k: nat, rest: string)
    requires k < |RULES|
    ensures FirstRule(RULES, RULES[k].pattern + rest) == k
  {
    var t := RULES[k].pattern + rest;
    assert t[1] == RULES[k].pattern[1];
    assert Starts(t, RULES[k].pattern);
    forall j | 0 <= j < k ensures !Starts(t, RULES[j].pattern) {
      assert Lower(t[1]) != RULES[j].pattern[1];
    }
  }

  lemma DecodesOne(c: char, rest: string)
    requires AllEntities(RULES)
    ensures OnePass(RULES, (if c in SPECIAL then Entity(c) else [c]) + rest) == [c] + OnePass(RULES, rest)
  {
    var k := match c case '"' => 1 case '<' => 3 case '>' => 4 case '&' => 5 case _ => 6;
    if k < 6 {
      OwnRule(k, rest);
      assert RULES[k].ch == c && RULES[k].pattern == Entity(c);
      assert (Entity(c) + rest)[|Entity(c)|..] == rest;
    } else {
      NoRule(RULES, [c] + rest);
      assert ([c] + rest)[1..] == rest;
    }
  }

  lemma {:induction false} PassDecodes(t: string)
    requires AllEntities(RULES)
    ensures OnePass(RULES, Encoded(SPECIAL, t)) == t
  {
    if t != "" {
      DecodesOne(t[0], Encoded(SPECIAL, t[1..]));
      PassDecodes(t[1..]);
    }
  }

  lemma DecodeUndoesEscape(t: string)
    ensures Decode(Escape(t)) == t
  {
    EscapeIsOnePass(t);
    RulesAreEntities();
    DecodeIsOnePass(Escape(t));
    PassDecodes(t);
  }

  /** Escaped text holds no bare markup character, so it is safe inside an element or an
      attribute in double quotes. */
  lemma EscapedHasNoMarkup(t: string)
    ensures Clean(Escape(t))
  {
    EscapeIsOnePass(t);
    EncodedIsClean(t);
  }

  predicate EntityAt(e: string, i: nat)
    requires i < |e|
  {
    exists c :: c in SPECIAL && Starts(e[i..], Entity(c))
  }

  predicate Clean(e: string) {
    && (forall c | c in e :: c != '<' && c != '>' && c != '"')
    && (forall i | 0 <= i < |e| && e[i] == '&' :: EntityAt(e, i))
  }

  lemma EntitiesAreClean(c: char)
    requires c in SPECIAL
    ensures |Entity(c)| > 1 && Entity(c)[0] == '&'
    ensures forall i | 0 <= i < |Entity(c)| :: Lower(Entity(c)[i]) == Entity(c)[i] && Entity(c)[i] !in {'<', '>', '"'}
    ensures forall i | 1 <= i < |Entity(c)| :: Entity(c)[i] != '&'
  {
  }

  lemma {:induction false} EncodedIsClean(t: string)
    ensures Clean(Encoded(SPECIAL, t))
  {
    if t != "" {
      EncodedIsClean(t[1..]);
      var rest := Encoded(SPECIAL, t[1..]);
      var head := if t[0] in SPECIAL then Entity(t[0]) else [t[0]];
      if t[0] in SPECIAL {
        EntitiesAreClean(t[0]);
      }
      CleanHead(head, rest);
    }
  }

  lemma CleanHead(head: string, rest: string)
    requires Clean(rest)
    requires forall c | c in head :: c != '<' && c != '>' && c != '"'
    requires forall i | 1 <= i < |head| :: head[i] != '&'
    requires '&' in head ==>
      exists c :: c in SPECIAL && head == Entity(c) && forall i | 0 <= i < |head| :: Lower(head[i]) == head[i]
    ensures Clean(head + rest)
  {
    var e := head + rest;
    forall i | 0 <= i < |e| && e[i] == '&' ensures EntityAt(e, i) {
      if i < |head| {
        assert head[i] in head;
        var c :| c in SPECIAL && head == Entity(c) && forall i | 0 <= i < |head| :: Lower(head[i]) == head[i];
        assert e[0..] == e && Starts(e, Entity(c));
      } else {
        assert EntityAt(rest, i - |head|);
        assert e[i..] == rest[i - |head|..];
      }
    }
  }

  lemma EscapedEntity()
    ensures Escape("&lt;") == "&amp;lt;"
  {
    EscapeIsOnePass("&lt;");
    EncodedAmpersand("lt;");
  }

  lemma EncodedAmpersand(s: string)
    requires forall c | c in s :: c !in SPECIAL
    ensures Encoded(SPECIAL, "&" + s) == "&amp;" + s
  {
    NothingEncoded(SPECIAL, s);
    assert ("&" + s)[0] == '&' && ("&" + s)[1..] == s;
  }

  lemma DecodedTwice()
    ensures Replaced(Replaced("&amp;lt;", "&amp;", "&"), "&lt;", "<") == "<"
  {
    var t := "&amp;lt;";
    assert Starts(t, "&amp;") && t[5..] == "lt;";
    NoAmpersand("lt;", "&amp;", "&");
    assert Replaced(t, "&amp;", "&") == "&lt;";
    assert Starts("&lt;", "&lt;") && "&lt;"[4..] == "";
  }

  lemma {:induction false} NoAmpersand(s: string, pattern: string, with: string)
    requires pattern != "" && pattern[0] == '&' && '&' !in s
    ensures Replaced(s, pattern, with) == s
  {
    if s != "" {
      assert Lower(s[0]) != pattern[0];
      NoAmpersand(s[1..], pattern, with);
    }
  }

  /** The order matters: ampersands must be decoded last ... */
  lemma DecodingAmpersandsFirstFails()
    ensures exists t :: Replaced(Replaced(Escape(t), "&amp;", "&"), "&lt;", "<") != t
  {
    EscapedEntity();
    DecodedTwice();
    assert "<" != "&lt;";
  }

  /** ... and escaped first. */
  lemma EscapingAmpersandsLastFails()
    ensures Replaced(Replaced("<", "<", "&lt;"), "&", "&amp;") == "&amp;lt;" != Escape("<")
  {
    EscapeIsOnePass("<");
    assert Encoded(SPECIAL, "<") == "&lt;" by { assert "<"[1..] == ""; }
    ReplacedHead('<', "", "&lt;");
    assert "<" == ['<'] + "" && "&lt;" + "" == "&lt;";
    ReplacedHead('&', "lt;", "&amp;");
    Untouched("lt;", '&', "&amp;");
    assert "&lt;" == ['&'] + "lt;" && "&amp;" + "lt;" == "&amp;lt;";
  }

  lemma ReplacedHead(c: char, rest: string, with: string)
    requires Lower(c) == c
    ensures Replaced([c] + rest, [c], with) == with + Replaced(rest, [c], with)
  {
    assert ([c] + rest)[1..] == rest;
  }

  lemma Untouched(s: string, c: char, with: string)
    requires Lower(c) == c && forall i | 0 <= i < |s| :: Lower(s[i]) != c
    ensures Replaced(s, [c], with) == s
  {
    assert s + "" == s;
    Passes(s, "", c, with);
  }

  // ----- the entities themselves -----

  /** What each special character is written as, and what each entity is read as. */
  lemma EntitiesAre()
    ensures Encoded(SPECIAL, "&") == "&amp;" && Encoded(SPECIAL, "<") == "&lt;"
    ensures Encoded(SPECIAL, ">") == "&gt;" && Encoded(SPECIAL, "\"") == "&quot;"
    ensures forall c | c != '&' && c != '<' && c != '>' && c != '"' :: Encoded(SPECIAL, [c]) == [c]
    ensures Starts("&LT;", "&lt;") && Starts("&Amp;", "&amp;") && !Starts("&l;", "&lt;")
    ensures forall k | 0 <= k < |RULES| ::
      (RULES[k].ch, RULES[k].pattern) in {
        (' ', "&nbsp;"), ('"', "&quot;"), ('\'', "&#39;"), ('<', "&lt;"), ('>', "&gt;"), ('&', "&amp;")}
  {
  }
}
