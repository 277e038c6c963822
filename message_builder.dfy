/** buildMessage's placeholder substitution and the visibility filter check. */
module MessageBuilder {
  import opened Wrappers
  import opened MessageVocabulary

  /** A value of a message's data object: a string or an integer. */
  datatype DataValue = Str(s: string) | Num(n: int)

  /** `String(value)`. */
  function ValueString(v: DataValue): string {
    match v
    case Str(s) => s
    case Num(n) => if n < 0 then "-" + NatToString(-n) else NatToString(n)
  }

  datatype Message = Message(text: string, msgType: string, priority: Priority, timestamp: int)

  /** `{key}`. */
  function Placeholder(key: string): (p: string)
    ensures |p| == |key| + 2 && p[0] == '{' && p[|p| - 1] == '}'
  {
    "{" + key + "}"
  }

  predicate BraceFree(s: string) {
    '{' !in s && '}' !in s
  }

  predicate OccursAt(s: string, pat: string, q: nat) {
    q + |pat| <= |s| && s[q..q + |pat|] == pat
  }

  /**
   * `text.replace(new RegExp(pat, 'g'), v)` with the pattern matched literally:
   * occurrences are replaced left to right without overlapping, and a text that does
   * not contain the pattern is returned as it is.
   */
  function ReplaceAll(text: string, pat: string, v: string): (r: string)
    requires |pat| > 0
    ensures !Contains(text, pat) ==> r == text
    decreases |text|
  {
    if text == [] then []
    else if pat <= text then v + ReplaceAll(text[|pat|..], pat, v)
    else [text[0]] + ReplaceAll(text[1..], pat, v)
  }

  function Join(parts: seq<string>, sep: string): string
    requires |parts| > 0
  {
    if |parts| == 1 then parts[0] else parts[0] + sep + Join(parts[1..], sep)
  }

  /**
   * The pieces between the occurrences of `pat`, left to right: joining them
   * with `pat` gives the text back, and no piece contains `pat`.
   */
  function Split(text: string, pat: string): (r: seq<string>)
    requires |pat| > 0
    ensures |r| > 0 && Join(r, pat) == text
    ensures forall i :: 0 <= i < |r| ==> !Contains(r[i], pat)
    decreases |text|
  {
    if text == [] then [""]
    else if pat <= text then
      var rest := Split(text[|pat|..], pat);
      assert text == pat + text[|pat|..];
      [""] + rest
    else
      var rest := Split(text[1..], pat);
      JoinHead(text[0], rest, pat);
      assert text == [text[0]] + text[1..];
      HeadPieceFree(text, rest, pat);
      [[text[0]] + rest[0]] + rest[1..]
  }

  lemma {:induction false} JoinHead(c: char, parts: seq<string>, sep: string)
    requires |parts| > 0
    ensures Join([[c] + parts[0]] + parts[1..], sep) == [c] + Join(parts, sep)
  {
    var ps := [[c] + parts[0]] + parts[1..];
    assert ps[1..] == parts[1..];
  }

  /** A text's Join starts with the first part. */
  lemma {:induction false} JoinPrefix(parts: seq<string>, sep: string)
    requires |parts| > 0
    ensures parts[0] <= Join(parts, sep)
  {
  }

  /** The new first piece of Split cannot contain the pattern: not at its start, since pat is not a prefix of text, nor later. */
  lemma {:induction false} HeadPieceFree(text: string, rest: seq<string>, pat: string)
    requires |pat| > 0 && text != [] && !(pat <= text)
    requires |rest| > 0 && Join(rest, pat) == text[1..] && !Contains(rest[0], pat)
    ensures !Contains([text[0]] + rest[0], pat)
  {
    var piece := [text[0]] + rest[0];
    JoinPrefix(rest, pat);
    assert piece[1..] == rest[0];
  }

  /** Replacing is joining the pieces with the replacement: every occurrence, and nothing else, is replaced. */
  lemma {:induction false} ReplaceIsJoin(text: string, pat: string, v: string)
    requires |pat| > 0
    ensures ReplaceAll(text, pat, v) == Join(Split(text, pat), v)
    decreases |text|
  {
    if text == [] {
    } else if pat <= text {
      ReplaceIsJoin(text[|pat|..], pat, v);
      var rest := Split(text[|pat|..], pat);
      assert Split(text, pat) == [""] + rest;
      assert ([""] + rest)[1..] == rest;
      assert Join([""] + rest, v) == "" + v + Join(rest, v);
      assert ReplaceAll(text, pat, v) == v + ReplaceAll(text[|pat|..], pat, v);
    } else {
      ReplaceIsJoin(text[1..], pat, v);
      var rest := Split(text[1..], pat);
      assert Split(text, pat) == [[text[0]] + rest[0]] + rest[1..];
      JoinHead(text[0], rest, v);
      assert ReplaceAll(text, pat, v) == [text[0]] + ReplaceAll(text[1..], pat, v);
    }
  }

  /** Replacing an occurrence by itself gives the text back. */
  lemma {:induction false} ReplaceWithItself(text: string, pat: string)
    requires |pat| > 0
    ensures ReplaceAll(text, pat, pat) == text
  {
    ReplaceIsJoin(text, pat, pat);
  }

  lemma {:induction false} ContainsAt(s: string, sub: string) returns (q: nat)
    requires Contains(s, sub)
    ensures OccursAt(s, sub, q)
    decreases |s|
  {
    if sub <= s {
      q := 0;
    } else {
      var q' := ContainsAt(s[1..], sub);
      q := q' + 1;
      assert s[q..q + |sub|] == s[1..][q'..q' + |sub|];
    }
  }

  /** An occurrence at the start makes the text contain the pattern, and prefixing keeps it. */
  lemma {:induction false} ContainsAfter(a: string, s: string, sub: string)
    requires Contains(s, sub)
    ensures Contains(a + s, sub)
    decreases |a|
  {
    if a != [] {
      ContainsAfter(a[1..], s, sub);
      assert (a + s)[1..] == a[1..] + s;
    } else {
      assert a + s == s;
    }
  }

  /** Text that cannot start an occurrence passes through untouched. */
  lemma {:induction false} ReplaceSkipsPrefix(u: string, w: string, pat: string, v: string)
    requires |pat| > 0 && pat[0] == '{' && '{' !in u
    ensures ReplaceAll(u + w, pat, v) == u + ReplaceAll(w, pat, v)
    decreases |u|
  {
    if u != [] {
      assert (u + w)[0] == u[0];
      assert !(pat <= u + w);
      assert (u + w)[1..] == u[1..] + w;
      ReplaceSkipsPrefix(u[1..], w, pat, v);
    } else {
      assert u + w == w;
    }
  }

  /** Two placeholders with brace-free keys overlap only when they are the same placeholder at the same place. */
  lemma {:induction false} PlaceholdersApart(text: string, j: string, k: string, q: nat)
    requires BraceFree(j) && BraceFree(k)
    requires Placeholder(j) <= text && OccursAt(text, Placeholder(k), q)
    ensures q >= |Placeholder(j)| || (q == 0 && j == k)
  {
    var P, K := Placeholder(j), Placeholder(k);
    if q < |P| {
      assert text[q] == K[0] by { assert K == text[q..q + |K|]; }
      assert text[q] == P[q] by { assert P == text[..|P|]; }
      assert forall i :: 0 < i < |P| - 1 ==> P[i] == j[i - 1];
      assert forall i :: 0 < i < |K| - 1 ==> K[i] == k[i - 1];
      assert q == 0;
      assert K == text[..|K|];
      assert P == text[..|P|];
      assert |j| == |k|;
      assert j == P[1..|P| - 1] == text[1..|j| + 1] == K[1..|K| - 1] == k;
    }
  }

  /** An occurrence at `q` is one at `q - d` of the text without its first `d` characters. */
  lemma {:induction false} OccursShift(s: string, sub: string, q: nat, d: nat)
    requires d <= q && OccursAt(s, sub, q)
    ensures Contains(s[d..], sub)
  {
    assert s[d..][q - d..q - d + |sub|] == s[q..q + |sub|];
    OccursContains(s[d..], sub, q - d);
  }

  /** A text starting with another placeholder keeps that placeholder in front. */
  lemma {:induction false} ReplaceAtOther(text: string, j: string, k: string, v: string)
    requires BraceFree(k) && Placeholder(k) <= text && !(Placeholder(j) <= text)
    ensures ReplaceAll(text, Placeholder(j), v) == Placeholder(k) + ReplaceAll(text[|Placeholder(k)|..], Placeholder(j), v)
  {
    var P, K := Placeholder(j), Placeholder(k);
    var u := k + "}";
    var w := text[|K|..];
    assert text[..|K|] == K;
    assert text == K + w;
    assert text[1..] == u + w;
    assert [text[0]] + u == K;
    ReplaceSkipsPrefix(u, w, P, v);
  }

  /** Replacing one placeholder keeps every occurrence of a placeholder with a different brace-free key. */
  lemma {:induction false} ReplaceKeepsOther(text: string, j: string, k: string, v: string)
    requires BraceFree(j) && BraceFree(k) && j != k
    requires Contains(text, Placeholder(k))
    ensures Contains(ReplaceAll(text, Placeholder(j), v), Placeholder(k))
    decreases |text|
  {
    var P, K := Placeholder(j), Placeholder(k);
    var q := ContainsAt(text, K);
    if P <= text {
      PlaceholdersApart(text, j, k, q);
      OccursShift(text, K, q, |P|);
      ReplaceKeepsOther(text[|P|..], j, k, v);
      ContainsAfter(v, ReplaceAll(text[|P|..], P, v), K);
    } else if q > 0 {
      OccursShift(text, K, q, 1);
      ReplaceKeepsOther(text[1..], j, k, v);
      ContainsAfter([text[0]], ReplaceAll(text[1..], P, v), K);
    } else {
      assert K <= text by { assert text[..|K|] == K; }
      ReplaceAtOther(text, j, k, v);
    }
  }

  lemma {:induction false} OccursContains(s: string, sub: string, q: nat)
    requires OccursAt(s, sub, q)
    ensures Contains(s, sub)
    decreases q
  {
    if q > 0 {
      assert s[1..][q - 1..q - 1 + |sub|] == s[q..q + |sub|];
      OccursContains(s[1..], sub, q - 1);
    } else {
      assert s[..|sub|] == sub;
    }
  }

  /** One step of the data loop: replace `{key}` when the text includes it. */
  function ApplyEntry(text: string, entry: (string, DataValue)): string {
    var placeholder := Placeholder(entry.0);
    if Contains(text, placeholder) then ReplaceAll(text, placeholder, ValueString(entry.1)) else text
  }

  /**
   * With the placeholder matched literally, the includes check only saves work: each
   * step is a plain replace-all.
   */
  lemma {:induction false} ApplyEntryIsReplace(text: string, entry: (string, DataValue))
    ensures ApplyEntry(text, entry) == ReplaceAll(text, Placeholder(entry.0), ValueString(entry.1))
  {
  }

  /**
   * The data loop over `Object.entries(data)`, in order; data whose placeholders the
   * text does not contain changes nothing.
   */
  function ApplyAll(text: string, data: seq<(string, DataValue)>): (r: string)
    ensures (forall i :: 0 <= i < |data| ==> !Contains(text, Placeholder(data[i].0))) ==> r == text
    decreases |data|
  {
    if data == [] then text else ApplyAll(ApplyEntry(text, data[0]), data[1..])
  }

  /** A placeholder whose key is not in the data stays in the text. */
  lemma {:induction false} UnmatchedPlaceholderStays(text: string, data: seq<(string, DataValue)>, k: string)
    requires BraceFree(k) && Contains(text, Placeholder(k))
    requires forall i :: 0 <= i < |data| ==> BraceFree(data[i].0) && data[i].0 != k
    ensures Contains(ApplyAll(text, data), Placeholder(k))
    decreases |data|
  {
    if data != [] {
      ApplyEntryIsReplace(text, data[0]);
      ReplaceKeepsOther(text, data[0].0, k, ValueString(data[0].1));
      UnmatchedPlaceholderStays(ApplyEntry(text, data[0]), data[1..], k);
    }
  }

  /** buildMessage's result as a value: null for an unknown type. */
  function Built(t: string, data: seq<(string, DataValue)>, now: int): (r: Option<Message>)
    ensures r.None? <==> GetMessageTemplate(t).None?
    ensures r.Some? ==> r.value.msgType == t && r.value.priority == GetMessageTemplate(t).value.priority &&
                        r.value.timestamp == now
  {
    match GetMessageTemplate(t)
    case None => None
    case Some(tpl) => Some(Message(ApplyAll(tpl.template, data), t, tpl.priority, now))
  }

  /** buildMessage, with `Date.now()` as the parameter `now`. */
  method BuildMessage(t: string, data: seq<(string, DataValue)>, now: int) returns (r: Option<Message>)
    ensures r == Built(t, data, now)
  {
    var template := GetMessageTemplate(t);
    if template.None? {
      return None;
    }
    var messageText := template.value.template;
    for i := 0 to |data|
      invariant ApplyAll(messageText, data[i..]) == ApplyAll(template.value.template, data)
    {
      var key := data[i].0;
      var placeholder := Placeholder(key);
      ghost var before := messageText;
      assert data[i..][0] == data[i] && data[i..][1..] == data[i + 1..];
      assert ApplyAll(before, data[i..]) == ApplyAll(ApplyEntry(before, data[i]), data[i + 1..]);
      if Contains(messageText, placeholder) {
        messageText := ReplaceAll(messageText, placeholder, ValueString(data[i].1));
      }
      assert messageText == ApplyEntry(before, data[i]);
    }
    assert data[|data|..] == [];
    return Some(Message(messageText, t, template.value.priority, now));
  }

  /** `list.includes(x)` for an optional argument: undefined is never in a list of strings. */
  predicate Includes(list: seq<string>, x: Option<string>) {
    x.Some? && x.value in list
  }

  /**
   * passesFilters: no filters pass; a non-empty submarines (roles) list must
   * include the player's submarine (role); empty or absent lists do not filter.
   */
  function PassesFilters(filters: Option<Filters>, playerSub: Option<string>, playerRole: Option<string>): (ok: bool)
    ensures filters.None? ==> ok
    ensures (filters.Some? && filters.value.submarines.Some? && |filters.value.submarines.value| > 0 &&
             !Includes(filters.value.submarines.value, playerSub)) ==> !ok
    ensures (filters.Some? && filters.value.roles.Some? && |filters.value.roles.value| > 0 &&
             !Includes(filters.value.roles.value, playerRole)) ==> !ok
    ensures ok <==> (filters.None? ||
      ((filters.value.submarines.None? || |filters.value.submarines.value| == 0 ||
        Includes(filters.value.submarines.value, playerSub)) &&
       (filters.value.roles.None? || |filters.value.roles.value| == 0 ||
        Includes(filters.value.roles.value, playerRole))))
  {
    if filters.None? then true
    else
      var f := filters.value;
      if f.submarines.Some? && |f.submarines.value| > 0 && !Includes(f.submarines.value, playerSub) then false
      else if f.roles.Some? && |f.roles.value| > 0 && !Includes(f.roles.value, playerRole) then false
      else true
  }

  /** Every template of the vocabulary passes the filters for every player. */
  lemma {:induction false} VocabularyVisibleToAll(t: string, playerSub: Option<string>, playerRole: Option<string>)
    requires GetMessageTemplate(t).Some?
    ensures PassesFilters(GetMessageTemplate(t).value.filters, playerSub, playerRole)
  {
  }
}
