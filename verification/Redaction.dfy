/** How argument values are represented in an audit record
    (sentinelmcp/telemetry/audit.py). Names are ASCII: lower-casing touches the
    letters A to Z only. */
module Redaction {
  import opened Wrappers
  import opened Json

  // ----- Sensitive names -----

  function Lower(c: char): char {
    if 'A' <= c <= 'Z' then c - 'A' + 'a' else c
  }

  predicate IsSeparator(c: char) { c == '_' || c == '-' }

  function Normalize(name: string): string {
    if name == "" then ""
    else if IsSeparator(name[0]) then Normalize(name[1..])
    else [Lower(name[0])] + Normalize(name[1..])
  }

  const SENSITIVE_NAME_FRAGMENTS: seq<string> :=
    ["password", "secret", "token", "api_key", "authorization", "credential"]

  predicate Contains(s: string, fragment: string) {
    exists i :: 0 <= i <= |s| && fragment <= s[i..]
  }

  predicate IsSensitiveName(name: string) {
    exists i :: 0 <= i < |SENSITIVE_NAME_FRAGMENTS| && Contains(Normalize(name), Normalize(SENSITIVE_NAME_FRAGMENTS[i]))
  }

  lemma {:induction false} NormalizeConcatenation(a: string, b: string)
    ensures Normalize(a + b) == Normalize(a) + Normalize(b)
  {
    if a == "" {
      assert a + b == b;
    } else {
      assert (a + b)[1..] == a[1..] + b;
      NormalizeConcatenation(a[1..], b);
    }
  }

  lemma {:induction false} NormalizeIdempotent(name: string)
    ensures Normalize(Normalize(name)) == Normalize(name)
  {
    if name != "" {
      NormalizeIdempotent(name[1..]);
    }
  }

  /** The same letter, capital or small, or the same other character. */
  ghost predicate SameLetter(a: char, b: char) {
    a == b || ('A' <= a <= 'Z' && b as int == a as int + 32) || ('A' <= b <= 'Z' && a as int == b as int + 32)
  }

  lemma LowerDecidesLetter(a: char, b: char)
    ensures Lower(a) == Lower(b) <==> SameLetter(a, b)
  {
  }

  /** Two spellings that differ by letter case and by `_` and `-` only. */
  ghost predicate SameSpelling(a: string, b: string)
    decreases |a| + |b|
  {
    if a != "" && (a[0] == '_' || a[0] == '-') then SameSpelling(a[1..], b)
    else if b != "" && (b[0] == '_' || b[0] == '-') then SameSpelling(a, b[1..])
    else if a == "" || b == "" then a == b
    else SameLetter(a[0], b[0]) && SameSpelling(a[1..], b[1..])
  }

  lemma {:induction false} NormalizeDecidesSpelling(a: string, b: string)
    ensures SameSpelling(a, b) <==> Normalize(a) == Normalize(b)
    decreases |a| + |b|
  {
    if a != "" && (a[0] == '_' || a[0] == '-') {
      NormalizeDecidesSpelling(a[1..], b);
    } else if b != "" && (b[0] == '_' || b[0] == '-') {
      NormalizeDecidesSpelling(a, b[1..]);
    } else if a != "" && b != "" {
      LowerDecidesLetter(a[0], b[0]);
      NormalizeDecidesSpelling(a[1..], b[1..]);
      assert Normalize(a)[1..] == Normalize(a[1..]);
      assert Normalize(b)[1..] == Normalize(b[1..]);
    }
  }

  /** No capital, no `_` and no `-`. */
  ghost predicate Bare(name: string) {
    forall i :: 0 <= i < |name| ==> !('A' <= name[i] <= 'Z') && name[i] != '_' && name[i] != '-'
  }

  /** What normalising leaves is bare, and what is bare it leaves alone. */
  lemma {:induction false} NormalizedIsBare(name: string)
    ensures Bare(Normalize(name))
    ensures Bare(name) ==> Normalize(name) == name
  {
    if name != "" {
      NormalizedIsBare(name[1..]);
      if Bare(name) { assert name == [name[0]] + name[1..]; }
    }
  }

  /** A capital becomes its small letter, `_` and `-` go. */
  lemma NormalizeOneCharacter(k: nat)
    requires k < 26
    ensures Normalize([('A' as int + k) as char]) == [('a' as int + k) as char]
    ensures Normalize("_") == "" && Normalize("-") == ""
  {
    var capital := ('A' as int + k) as char;
    assert [capital][0] == capital && [capital][1..] == "";
    assert "_"[1..] == "" && "-"[1..] == "";
  }

  lemma ContainsInside(before: string, s: string, after: string, fragment: string)
    requires Contains(s, fragment)
    ensures Contains(before + s + after, fragment)
  {
    var i :| 0 <= i <= |s| && fragment <= s[i..];
    assert (before + s + after)[|before| + i..] == s[i..] + after;
  }

  /** Neither spelling nor surrounding text can hide a sensitive name. */
  lemma {:induction false} SensitivityIsStable(name: string, spelling: string, before: string, after: string)
    requires IsSensitiveName(name) && SameSpelling(name, spelling)
    ensures IsSensitiveName(before + spelling + after)
  {
    NormalizeDecidesSpelling(name, spelling);
    NormalizeConcatenation(before + spelling, after);
    NormalizeConcatenation(before, spelling);
    var i :| 0 <= i < |SENSITIVE_NAME_FRAGMENTS|
             && Contains(Normalize(name), Normalize(SENSITIVE_NAME_FRAGMENTS[i]));
    ContainsInside(Normalize(before), Normalize(spelling), Normalize(after), Normalize(SENSITIVE_NAME_FRAGMENTS[i]));
  }

  ghost predicate StandsAt(s: string, word: string, i: int) {
    0 <= i && i + |word| <= |s| && s[i..i + |word|] == word
  }

  /** `word` stands somewhere in `s`. */
  ghost predicate Holds(s: string, word: string) { exists i :: StandsAt(s, word, i) }

  lemma ContainsIsHolds(s: string, word: string)
    ensures Contains(s, word) <==> Holds(s, word)
  {
    if i :| 0 <= i <= |s| && word <= s[i..] {
      assert StandsAt(s, word, i);
    }
    if i :| StandsAt(s, word, i) {
      assert s[i..][..|word|] == word;
      assert 0 <= i <= |s| && word <= s[i..];
    }
  }

  /** The documented fragments, written bare. */
  const BARE_FRAGMENTS: seq<string> :=
    ["password", "secret", "token", "apikey", "authorization", "credential"]

  lemma WordIsBare(w: string)
    requires w in ["password", "secret", "token", "authorization", "credential", "api", "key"]
    ensures Bare(w)
  {
  }

  lemma TwoWordsNormalized(a: string, mark: char, b: string)
    requires Bare(a) && Bare(b) && mark == '_'
    ensures Normalize(a + [mark] + b) == a + b
  {
    NormalizeConcatenation(a + [mark], b);
    NormalizeConcatenation(a, [mark]);
    NormalizedIsBare(a);
    NormalizedIsBare(b);
    assert [mark][0] == '_' && [mark][1..] == "";
  }

  lemma ApiKeyNormalized(w: string)
    requires w == "api_key"
    ensures Normalize(w) == "apikey"
  {
    var a, b := w[..3], w[4..];
    assert a == "api" && b == "key" && w == a + [w[3]] + b;
    WordIsBare(a);
    WordIsBare(b);
    TwoWordsNormalized(a, w[3], b);
  }

  lemma FragmentNormalized(i: nat)
    requires i < 6
    ensures |SENSITIVE_NAME_FRAGMENTS| == 6 && Normalize(SENSITIVE_NAME_FRAGMENTS[i]) == BARE_FRAGMENTS[i]
  {
    var w := SENSITIVE_NAME_FRAGMENTS[i];
    if i == 3 {
      ApiKeyNormalized(w);
    } else {
      WordIsBare(w);
      NormalizedIsBare(w);
    }
  }

  /** A name is sensitive exactly when, written bare, it holds one of the six words. */
  lemma SensitiveExactly(name: string)
    ensures IsSensitiveName(name) <==> exists i :: 0 <= i < 6 && Holds(Normalize(name), BARE_FRAGMENTS[i])
  {
    forall i | 0 <= i < 6
      ensures Contains(Normalize(name), Normalize(SENSITIVE_NAME_FRAGMENTS[i])) <==>
                Holds(Normalize(name), BARE_FRAGMENTS[i])
    {
      FragmentNormalized(i);
      ContainsIsHolds(Normalize(name), BARE_FRAGMENTS[i]);
    }
  }

  /** Each of the documented fragments is caught, in any spelling and within any name. */
  lemma ListedFragmentsAreCaught(fragment: string, spelling: string, before: string, after: string)
    requires fragment in ["password", "secret", "token", "api_key", "authorization", "credential"]
    requires SameSpelling(fragment, spelling)
    ensures IsSensitiveName(before + spelling + after)
  {
    var i :| 0 <= i < |SENSITIVE_NAME_FRAGMENTS| && SENSITIVE_NAME_FRAGMENTS[i] == fragment;
    assert Normalize(fragment) <= Normalize(fragment)[0..];
    SensitivityIsStable(fragment, spelling, before, after);
  }

  lemma SameSpellingSameSensitivity(a: string, b: string)
    requires Normalize(a) == Normalize(b)
    ensures SameSpelling(a, b) && (IsSensitiveName(a) <==> IsSensitiveName(b))
  {
    NormalizeDecidesSpelling(a, b);
  }

  /** `_` and `-` may be put in or taken out anywhere. */
  lemma SeparatorsDoNotMatter(before: string, separator: char, after: string)
    requires separator == '_' || separator == '-'
    ensures SameSpelling(before + [separator] + after, before + after)
    ensures IsSensitiveName(before + [separator] + after) <==> IsSensitiveName(before + after)
  {
    NormalizeConcatenation(before + [separator], after);
    NormalizeConcatenation(before, [separator]);
    NormalizeConcatenation(before, after);
    SameSpellingSameSensitivity(before + [separator] + after, before + after);
  }

  /** Nor does the case of any letter matter. */
  lemma CaseDoesNotMatter(before: string, k: nat, after: string)
    requires k < 26
    ensures var capital, small := ('A' as int + k) as char, ('a' as int + k) as char;
            && SameSpelling(before + [capital] + after, before + [small] + after)
            && (IsSensitiveName(before + [capital] + after) <==> IsSensitiveName(before + [small] + after))
  {
    var capital, small := ('A' as int + k) as char, ('a' as int + k) as char;
    NormalizeConcatenation(before + [capital], after);
    NormalizeConcatenation(before, [capital]);
    NormalizeConcatenation(before + [small], after);
    NormalizeConcatenation(before, [small]);
    NormalizeOneCharacter(k);
    NormalizedIsBare([small]);
    SameSpellingSameSensitivity(before + [capital] + after, before + [small] + after);
  }

  // ----- The representations -----

  const REDACTED_PLACEHOLDER: Json := Str("***REDACTED***")

  function Redact(value: Json): Json {
    match value
    case Object(fields) =>
      Object(map k | k in fields.Keys :: if IsSensitiveName(k) then REDACTED_PLACEHOLDER else Redact(fields[k]))
    case List(items) => List(seq(|items|, i requires 0 <= i < |items| => Redact(items[i])))
    case _ => value
  }

  function KeysOnly(value: Json): Json {
    match value
    case Object(fields) => Object(map k | k in fields.Keys :: KeysOnly(fields[k]))
    case List(items) => List(seq(|items|, _ => Str("<item>")))
    case _ => Str("<value>")
  }

  function RepresentArguments(arguments: Json, mode: string): Result<Json> {
    if mode == "none" then Success(Null)
    else if mode == "keys_only" then Success(KeysOnly(arguments))
    else if mode == "redacted" then Success(Redact(arguments))
    else if mode == "full" then Success(arguments)
    else Failure("unknown redaction mode")
  }

  // ----- What can be seen of a value, path by path -----

  datatype Step = Key(name: string) | Index(i: nat)

  /** What stands at a path: nothing, a leaf, or a container's own outline. */
  datatype Sight = Nothing | Leaf(value: Json) | ListOf(length: nat) | ObjectWith(names: set<string>)

  ghost function Look(v: Json, path: seq<Step>): Sight
    decreases |path|
  {
    if path == [] then
      match v
      case Object(fields) => ObjectWith(fields.Keys)
      case List(items) => ListOf(|items|)
      case _ => Leaf(v)
    else
      match (v, path[0])
      case (Object(fields), Key(k)) => if k in fields then Look(fields[k], path[1..]) else Nothing
      case (List(items), Index(i)) => if i < |items| then Look(items[i], path[1..]) else Nothing
      case _ => Nothing
  }

  ghost predicate Shows(step: Step) { step.Key? ==> !IsSensitiveName(step.name) }

  /** No step of the path goes beneath a sensitive name. */
  ghost predicate Visible(path: seq<Step>) {
    forall i :: 0 <= i < |path| ==> Shows(path[i])
  }

  /** `a` and `b` agree everywhere except beneath sensitive names. */
  ghost predicate AgreeWhereVisible(a: Json, b: Json) {
    forall path :: Visible(path) ==> Look(a, path) == Look(b, path)
  }

  /** Redaction changes nothing at a visible path. */
  lemma {:induction false} RedactKeepsTheVisible(v: Json, path: seq<Step>)
    requires Visible(path)
    ensures Look(Redact(v), path) == Look(v, path)
    decreases |path|
  {
    if path == [] {
      if v.Object? { assert Redact(v).fields.Keys == v.fields.Keys; }
    } else {
      assert Visible(path[1..]);
      match (v, path[0])
      case (Object(fields), Key(k)) =>
        if k in fields { RedactKeepsTheVisible(fields[k], path[1..]); }
      case (List(items), Index(i)) =>
        if i < |items| { RedactKeepsTheVisible(items[i], path[1..]); }
      case _ =>
    }
  }

  // One step in front of a path: how it looks from the child, and whether it shows.

  lemma LookUnderKey(fields: map<string, Json>, k: string, path: seq<Step>)
    requires k in fields
    ensures Look(Object(fields), [Key(k)] + path) == Look(fields[k], path)
  {
    assert ([Key(k)] + path)[1..] == path;
  }

  lemma LookUnderIndex(items: seq<Json>, i: nat, path: seq<Step>)
    requires i < |items|
    ensures Look(List(items), [Index(i)] + path) == Look(items[i], path)
  {
    assert ([Index(i)] + path)[1..] == path;
  }

  lemma VisibleUnder(step: Step, path: seq<Step>)
    requires Shows(step) && Visible(path)
    ensures Visible([step] + path)
  {
    var longer := [step] + path;
    forall i | 0 <= i < |longer| ensures Shows(longer[i]) {
      if i > 0 { assert longer[i] == path[i - 1]; }
    }
  }

  lemma AgreementUnderKey(x: map<string, Json>, y: map<string, Json>, k: string)
    requires AgreeWhereVisible(Object(x), Object(y)) && k in x && k in y && Shows(Key(k))
    ensures AgreeWhereVisible(x[k], y[k])
  {
    forall path | Visible(path) ensures Look(x[k], path) == Look(y[k], path) {
      VisibleUnder(Key(k), path);
      LookUnderKey(x, k, path);
      LookUnderKey(y, k, path);
    }
  }

  lemma AgreementUnderIndex(x: seq<Json>, y: seq<Json>, i: nat)
    requires AgreeWhereVisible(List(x), List(y)) && i < |x| && i < |y|
    ensures AgreeWhereVisible(x[i], y[i])
  {
    forall path | Visible(path) ensures Look(x[i], path) == Look(y[i], path) {
      VisibleUnder(Index(i), path);
      LookUnderIndex(x, i, path);
      LookUnderIndex(y, i, path);
    }
  }

  lemma {:induction false} AgreementDeterminesRedaction(a: Json, b: Json)
    requires AgreeWhereVisible(a, b)
    ensures Redact(a) == Redact(b)
    decreases a
  {
    assert Visible([]) && Look(a, []) == Look(b, []);
    match a
    case Object(x) =>
      var y := b.fields;
      forall k | k in x.Keys && !IsSensitiveName(k) ensures Redact(x[k]) == Redact(y[k]) {
        AgreementUnderKey(x, y, k);
        AgreementDeterminesRedaction(x[k], y[k]);
      }
      assert Redact(a).fields == Redact(b).fields;
    case List(x) =>
      var y := b.items;
      forall i | 0 <= i < |x| ensures Redact(x[i]) == Redact(y[i]) {
        AgreementUnderIndex(x, y, i);
        AgreementDeterminesRedaction(x[i], y[i]);
      }
      assert Redact(a).items == Redact(b).items;
    case _ =>
  }

  /** Non-interference, both ways: the redacted form reveals everything outside
      sensitive names and nothing beneath them. */
  lemma RedactionNonInterference(a: Json, b: Json)
    ensures Redact(a) == Redact(b) <==> AgreeWhereVisible(a, b)
  {
    if Redact(a) == Redact(b) {
      forall path | Visible(path) ensures Look(a, path) == Look(b, path) {
        RedactKeepsTheVisible(a, path);
        RedactKeepsTheVisible(b, path);
      }
    } else if AgreeWhereVisible(a, b) {
      AgreementDeterminesRedaction(a, b);
    }
  }

  /** Along `path` stands an object with that key. */
  ghost predicate HasKey(v: Json, path: seq<Step>, name: string) {
    Look(v, path).ObjectWith? && name in Look(v, path).names
  }

  /** Beneath a sensitive name, wherever it shows, stands the placeholder. */
  lemma {:induction false} RedactHidesBeneath(v: Json, path: seq<Step>, name: string)
    requires Visible(path) && IsSensitiveName(name)
    requires HasKey(v, path, name)
    ensures Look(Redact(v), path + [Key(name)]) == Leaf(Str("***REDACTED***"))
    decreases |path|
  {
    if path == [] {
      assert ([] + [Key(name)])[1..] == [];
    } else {
      assert (path + [Key(name)])[0] == path[0] && (path + [Key(name)])[1..] == path[1..] + [Key(name)];
      assert Shows(path[0]);
      VisibleBelow(path);
      match (v, path[0])
      case (Object(fields), Key(k)) => RedactHidesBeneath(fields[k], path[1..], name);
      case (List(items), Index(i)) => RedactHidesBeneath(items[i], path[1..], name);
    }
  }

  lemma VisibleBelow(path: seq<Step>)
    requires path != [] && Visible(path)
    ensures Visible(path[1..])
  {
    forall i | 0 <= i < |path[1..]| ensures Shows(path[1..][i]) {
      assert path[1..][i] == path[i + 1];
    }
  }

  lemma {:induction false} RedactIdempotent(a: Json)
    ensures Redact(Redact(a)) == Redact(a)
  {
    forall path | Visible(path) ensures Look(Redact(a), path) == Look(a, path) {
      RedactKeepsTheVisible(a, path);
    }
    AgreementDeterminesRedaction(Redact(a), a);
  }

  /** Some visible object holds a real value under a sensitive name. */
  ghost predicate ExposesSecret(v: Json) {
    match v
    case Object(fields) =>
      exists k :: k in fields.Keys && if IsSensitiveName(k) then fields[k] != REDACTED_PLACEHOLDER
                                      else ExposesSecret(fields[k])
    case List(items) => exists i :: 0 <= i < |items| && ExposesSecret(items[i])
    case _ => false
  }

  /** Redaction alters a value exactly when there is something to hide. */
  lemma {:induction false} RedactIsIdentityExactly(v: Json)
    ensures Redact(v) == v <==> !ExposesSecret(v)
  {
    match v
    case Object(fields) =>
      forall k | k in fields.Keys ensures Redact(fields[k]) == fields[k] <==> !ExposesSecret(fields[k]) {
        RedactIsIdentityExactly(fields[k]);
      }
      if !ExposesSecret(v) { assert Redact(v).fields == fields; }
      if Redact(v) == v {
        forall k | k in fields.Keys
          ensures if IsSensitiveName(k) then fields[k] == REDACTED_PLACEHOLDER else !ExposesSecret(fields[k])
        {
          assert Redact(v).fields[k] == fields[k];
        }
      }
    case List(items) =>
      forall i | 0 <= i < |items| ensures Redact(items[i]) == items[i] <==> !ExposesSecret(items[i]) {
        RedactIsIdentityExactly(items[i]);
      }
      if !ExposesSecret(v) { assert Redact(v).items == items; }
      if Redact(v) == v {
        forall i | 0 <= i < |items| ensures !ExposesSecret(items[i]) {
          assert Redact(v).items[i] == items[i];
        }
      }
    case _ =>
  }

  // ----- The keys-only form -----

  /** The same keys at every depth of objects, the same list lengths, and leaves
      in the same places. */
  ghost predicate SameShape(a: Json, b: Json)
    decreases a
  {
    match (a, b)
    case (Object(x), Object(y)) => x.Keys == y.Keys && forall k :: k in x.Keys ==> SameShape(x[k], y[k])
    case (List(x), List(y)) => |x| == |y|
    case _ => !a.IsContainer() && !b.IsContainer()
  }

  lemma {:induction false} KeysOnlyRevealsExactlyTheShape(a: Json, b: Json)
    ensures KeysOnly(a) == KeysOnly(b) <==> SameShape(a, b)
    decreases a
  {
    match (a, b)
    case (Object(x), Object(y)) =>
      forall k | k in x.Keys && k in y.Keys ensures KeysOnly(x[k]) == KeysOnly(y[k]) <==> SameShape(x[k], y[k]) {
        KeysOnlyRevealsExactlyTheShape(x[k], y[k]);
      }
      var kx, ky := KeysOnly(a).fields, KeysOnly(b).fields;
      assert kx.Keys == x.Keys && ky.Keys == y.Keys;
      if kx == ky {
        assert forall k :: k in x.Keys ==> kx[k] == KeysOnly(x[k]) && ky[k] == KeysOnly(y[k]);
      }
    case (List(x), List(y)) =>
      var kx, ky := KeysOnly(a).items, KeysOnly(b).items;
      assert |kx| == |x| && |ky| == |y|;
      if |x| == |y| { assert kx == ky; }
    case _ =>
  }

  /** Leaves say "<value>", the members of lists "<item>". */
  ghost predicate OnlyPlaceholders(v: Json) {
    match v
    case Object(fields) => forall k :: k in fields.Keys ==> OnlyPlaceholders(fields[k])
    case List(items) => forall i :: 0 <= i < |items| ==> items[i] == Str("<item>")
    case _ => v == Str("<value>")
  }

  lemma {:induction false} KeysOnlyHoldsNoValue(v: Json)
    ensures SameShape(KeysOnly(v), v) && OnlyPlaceholders(KeysOnly(v))
  {
    SameShapeAsKeysOnly(v);
    if v.Object? {
      forall k | k in v.fields.Keys ensures OnlyPlaceholders(KeysOnly(v.fields[k])) {
        KeysOnlyHoldsNoValue(v.fields[k]);
      }
    }
  }

  lemma {:induction false} SameShapeAsKeysOnly(v: Json)
    ensures SameShape(KeysOnly(v), v)
  {
    if v.Object? {
      forall k | k in v.fields.Keys ensures SameShape(KeysOnly(v.fields[k]), v.fields[k]) {
        SameShapeAsKeysOnly(v.fields[k]);
      }
    }
  }

  lemma {:induction false} KeysOnlyIdempotent(v: Json)
    ensures KeysOnly(KeysOnly(v)) == KeysOnly(v)
  {
    SameShapeAsKeysOnly(v);
    KeysOnlyRevealsExactlyTheShape(KeysOnly(v), v);
  }

  // ----- The four modes together -----

  /** `shown` is what the mode promises to show of `v`. */
  ghost predicate ShownAs(v: Json, mode: string, shown: Json) {
    && mode in ["none", "keys_only", "redacted", "full"]
    && (mode == "none" ==> shown == Null)
    && (mode == "keys_only" ==> SameShape(shown, v) && OnlyPlaceholders(shown))
    && (mode == "redacted" ==> VisiblyTheSame(v, shown) && SecretsReplaced(v, shown))
    && (mode == "full" ==> shown == v)
  }

  ghost predicate VisiblyTheSame(v: Json, shown: Json) {
    forall path :: Visible(path) ==> Look(shown, path) == Look(v, path)
  }

  ghost predicate SecretsReplaced(v: Json, shown: Json) {
    forall path, name :: Visible(path) && IsSensitiveName(name) && HasKey(v, path, name) ==>
                           Look(shown, path + [Key(name)]) == Leaf(Str("***REDACTED***"))
  }

  lemma RedactShows(v: Json)
    ensures VisiblyTheSame(v, Redact(v)) && SecretsReplaced(v, Redact(v))
  {
    forall path | Visible(path) ensures Look(Redact(v), path) == Look(v, path) {
      RedactKeepsTheVisible(v, path);
    }
    forall path, name | Visible(path) && IsSensitiveName(name) && HasKey(v, path, name)
      ensures Look(Redact(v), path + [Key(name)]) == Leaf(Str("***REDACTED***"))
    {
      RedactHidesBeneath(v, path, name);
    }
  }

  /** Each mode shows what it promises; any other mode is an error. */
  lemma RepresentationKeepsItsPromise(arguments: Json, mode: string)
    ensures match RepresentArguments(arguments, mode)
            case Success(shown) => ShownAs(arguments, mode, shown)
            case Failure(_) => mode !in ["none", "keys_only", "redacted", "full"]
  {
    if mode == "redacted" { RedactShows(arguments); }
    if mode == "keys_only" { KeysOnlyHoldsNoValue(arguments); }
  }

  /** What a reader of the log learns about the arguments, mode by mode. */
  lemma ModeRevealsExactly(a: Json, b: Json, mode: string)
    ensures RepresentArguments(a, mode) == RepresentArguments(b, mode) <==>
              (mode == "keys_only" ==> SameShape(a, b))
              && (mode == "redacted" ==> AgreeWhereVisible(a, b))
              && (mode == "full" ==> a == b)
    ensures RepresentArguments(a, mode).Failure? <==> mode !in ["none", "keys_only", "redacted", "full"]
  {
    KeysOnlyRevealsExactlyTheShape(a, b);
    RedactionNonInterference(a, b);
  }

  /** `keys_only` is not a stricter `redacted`: it shows the shape of a value
      beneath a sensitive name, which `redacted` hides. */
  lemma KeysOnlyShowsShapeBeneathSensitiveNames(name: string, v: Json, w: Json)
    requires IsSensitiveName(name) && !SameShape(v, w)
    ensures Redact(Object(map[name := v])) == Redact(Object(map[name := w]))
    ensures KeysOnly(Object(map[name := v])) != KeysOnly(Object(map[name := w]))
  {
    var a, b := Object(map[name := v]), Object(map[name := w]);
    assert Redact(a).fields == Redact(b).fields;
    assert !SameShape(a.fields[name], b.fields[name]);
    KeysOnlyRevealsExactlyTheShape(a, b);
  }
}
