/** Redaction of a job specification before it is stored for diagnosis. */
module Redaction {
  /** JSON values; `Atom` is a null, a boolean or a number. An object's keys are distinct. */
  datatype Json = Atom(text: string) | Text(text: string) | Arr(items: Items) | Obj(fields: Fields)
  datatype Items = NoItems | Item(head: Json, tail: Items)
  datatype Fields = NoFields | Field(key: string, value: Json, others: Fields)

  const REDACTED := Text("<redacted>")
  const REDACTED_COMMAND := Arr(Item(Text("<redacted: command may contain credentials>"), NoItems))

  // ---- What a key means ----

  function Lower(s: string): (r: string)
    ensures |r| == |s|
  {
    seq(|s|, i requires 0 <= i < |s| => if 'A' <= s[i] <= 'Z' then s[i] - 'A' + 'a' else s[i])
  }

  predicate Contains(s: string, part: string) {
    exists i | 0 <= i <= |s| :: part <= s[i..]
  }

  predicate EndsWith(s: string, part: string) {
    |part| <= |s| && s[|s| - |part|..] == part
  }

  datatype Meaning = Command | Secrets | Sensitive | Plain

  function MeaningOf(key: string): Meaning {
    var k := Lower(key);
    if k == "command" then Command
    else if k == "secrets" then Secrets
    else if || Contains(k, "token") || Contains(k, "password") || Contains(k, "secret")
            || Contains(k, "authorization")
            || EndsWith(k, "apikey") || EndsWith(k, "api_key") || EndsWith(k, "_key")
    then Sensitive
    else Plain
  }

  // ---- The same, in any mix of upper and lower case ----

  predicate SameLetter(c: char, d: char) {
    || c == d
    || ('A' <= c <= 'Z' && d == c - 'A' + 'a')
    || ('A' <= d <= 'Z' && c == d - 'A' + 'a')
  }

  predicate SameWord(a: string, b: string) {
    |a| == |b| && forall i | 0 <= i < |a| :: SameLetter(a[i], b[i])
  }

  predicate BeginsWithWord(s: string, word: string) {
    |word| <= |s| && SameWord(s[..|word|], word)
  }

  predicate HasWord(key: string, word: string) {
    exists i | 0 <= i <= |key| :: BeginsWithWord(key[i..], word)
  }

  predicate EndsWithWord(key: string, word: string) {
    |word| <= |key| && SameWord(key[|key| - |word|..], word)
  }

  predicate LowerCase(word: string) {
    forall i | 0 <= i < |word| :: 'a' <= word[i] <= 'z' || word[i] == '_'
  }

  lemma LowerIsWord(s: string, word: string)
    requires LowerCase(word)
    ensures Lower(s) == word <==> SameWord(s, word)
  {
    if SameWord(s, word) {
      forall i | 0 <= i < |s|
        ensures Lower(s)[i] == word[i]
      {}
    } else if |s| == |word| {
      var i :| 0 <= i < |s| && !SameLetter(s[i], word[i]);
      assert Lower(s)[i] != word[i];
    }
  }

  lemma LowerOfPart(s: string, i: nat, j: nat)
    requires i <= j <= |s|
    ensures Lower(s)[i..j] == Lower(s[i..j])
  {}

  lemma ContainsIsWord(key: string, word: string)
    requires LowerCase(word)
    ensures Contains(Lower(key), word) <==> HasWord(key, word)
  {
    forall i | 0 <= i <= |key|
      ensures word <= Lower(key)[i..] <==> BeginsWithWord(key[i..], word)
    {
      if i + |word| <= |key| {
        LowerOfPart(key, i, i + |word|);
        LowerIsWord(key[i..i + |word|], word);
        assert key[i..][..|word|] == key[i..i + |word|];
        assert Lower(key)[i..][..|word|] == Lower(key)[i..i + |word|];
      }
    }
  }

  lemma EndsIsWord(key: string, word: string)
    requires LowerCase(word)
    ensures EndsWith(Lower(key), word) <==> EndsWithWord(key, word)
  {
    if |word| <= |key| {
      LowerOfPart(key, |key| - |word|, |key|);
      LowerIsWord(key[|key| - |word|..], word);
      assert key[|key| - |word|..|key|] == key[|key| - |word|..];
    }
  }

  predicate SensitiveWords(key: string) {
    || HasWord(key, "token") || HasWord(key, "password") || HasWord(key, "secret")
    || HasWord(key, "authorization")
    || EndsWithWord(key, "apikey") || EndsWithWord(key, "api_key") || EndsWithWord(key, "_key")
  }

  /** What a key means does not depend on case, and depends on these words only. */
  lemma MeaningExactly(key: string)
    ensures MeaningOf(key) == Command <==> SameWord(key, "command")
    ensures MeaningOf(key) == Secrets <==> SameWord(key, "secrets")
    ensures MeaningOf(key) == Sensitive <==>
      !SameWord(key, "command") && !SameWord(key, "secrets") && SensitiveWords(key)
  {
    hide Lower, Contains, EndsWith, SameWord, HasWord, EndsWithWord;
    LowerIsWord(key, "command");
    LowerIsWord(key, "secrets");
    ContainsIsWord(key, "token");
    ContainsIsWord(key, "password");
    ContainsIsWord(key, "secret");
    ContainsIsWord(key, "authorization");
    EndsIsWord(key, "apikey");
    EndsIsWord(key, "api_key");
    EndsIsWord(key, "_key");
    assert "command" != "secrets";
  }

  // ---- The redaction ----

  function Size(v: Json): (n: nat)
    ensures n > 0
    decreases v
  {
    match v
    case Arr(items) => 1 + ItemsSize(items)
    case Obj(fields) => 1 + FieldsSize(fields)
    case _ => 1
  }

  function ItemsSize(items: Items): nat
    decreases items
  {
    match items
    case NoItems => 0
    case Item(v, rest) => 1 + Size(v) + ItemsSize(rest)
  }

  function FieldsSize(fields: Fields): nat
    decreases fields
  {
    match fields
    case NoFields => 0
    case Field(_, v, rest) => 1 + Size(v) + FieldsSize(rest)
  }

  /** The pass over one element of a secrets array: its own "value", spelled exactly so, is replaced. */
  function MaskFields(fields: Fields): (r: Fields)
    ensures FieldsSize(r) <= FieldsSize(fields)
  {
    match fields
    case NoFields => NoFields
    case Field(key, v, rest) => Field(key, if key == "value" then REDACTED else v, MaskFields(rest))
  }

  function MaskItems(items: Items): (r: Items)
    ensures ItemsSize(r) <= ItemsSize(items)
  {
    match items
    case NoItems => NoItems
    case Item(v, rest) => Item(if v.Obj? then Obj(MaskFields(v.fields)) else v, MaskItems(rest))
  }

  function Mask(v: Json): (r: Json)
    ensures Size(r) <= Size(v)
  {
    if v.Arr? then Arr(MaskItems(v.items)) else v
  }

  function Redact(v: Json): Json
    decreases Size(v), 0
  {
    match v
    case Obj(fields) => Obj(RedactFields(fields))
    case Arr(items) => Arr(RedactItems(items))
    case _ => v
  }

  function RedactItems(items: Items): Items
    decreases ItemsSize(items), 0
  {
    match items
    case NoItems => NoItems
    case Item(v, rest) => Item(Redact(v), RedactItems(rest))
  }

  function RedactFields(fields: Fields): Fields
    decreases FieldsSize(fields), 0
  {
    match fields
    case NoFields => NoFields
    case Field(key, v, rest) => Field(key, RedactUnder(key, v), RedactFields(rest))
  }

  /** The value a key is left with; a secrets array is masked first and then redacted as a whole. */
  function RedactUnder(key: string, v: Json): Json
    decreases Size(v), 1
  {
    match MeaningOf(key)
    case Command => REDACTED_COMMAND
    case Secrets => Redact(Mask(v))
    case Sensitive => REDACTED
    case Plain => Redact(v)
  }

  // ---- Redacting twice ----

  /** Redaction leaves nothing for a second pass over a secrets array to mask. */
  lemma {:induction false} FieldsStayMasked(fields: Fields)
    ensures MaskFields(RedactFields(MaskFields(fields))) == RedactFields(MaskFields(fields))
  {
    match fields
    case NoFields =>
    case Field(key, _, rest) =>
      FieldsStayMasked(rest);
      if key == "value" {
        ValueStaysRedacted();
      }
  }

  lemma ValueStaysRedacted()
    ensures RedactUnder("value", REDACTED) == REDACTED
  {
    assert |Lower("value")| == 5;
    assert MeaningOf("value") != Command;
  }

  lemma {:induction false} ItemsStayMasked(items: Items)
    ensures MaskItems(RedactItems(MaskItems(items))) == RedactItems(MaskItems(items))
  {
    match items
    case NoItems =>
    case Item(v, rest) =>
      ItemsStayMasked(rest);
      if v.Obj? {
        FieldsStayMasked(v.fields);
      }
  }

  lemma StaysMasked(v: Json)
    ensures Mask(Redact(Mask(v))) == Redact(Mask(v))
  {
    if v.Arr? {
      ItemsStayMasked(v.items);
    }
  }

  /** Redacting twice is redacting once. */
  lemma {:induction false} RedactIsIdempotent(v: Json)
    ensures Redact(Redact(v)) == Redact(v)
    decreases Size(v), 0
  {
    match v
    case Obj(fields) => RedactFieldsIsIdempotent(fields);
    case Arr(items) => RedactItemsIsIdempotent(items);
    case _ =>
  }

  lemma {:induction false} RedactItemsIsIdempotent(items: Items)
    ensures RedactItems(RedactItems(items)) == RedactItems(items)
    decreases ItemsSize(items), 0
  {
    match items
    case NoItems =>
    case Item(v, rest) =>
      RedactIsIdempotent(v);
      RedactItemsIsIdempotent(rest);
  }

  lemma {:induction false} RedactFieldsIsIdempotent(fields: Fields)
    ensures RedactFields(RedactFields(fields)) == RedactFields(fields)
    decreases FieldsSize(fields), 0
  {
    hide MeaningOf;
    match fields
    case NoFields =>
    case Field(key, v, rest) =>
      RedactFieldsIsIdempotent(rest);
      RedactIsIdempotent(v);
      RedactIsIdempotent(Mask(v));
      StaysMasked(v);
  }

  // ---- What redaction hides, and that it hides nothing else ----

  /** Equal but for what lies under commands and sensitive keys, or in the values of secrets. */
  predicate Agree(a: Json, b: Json)
    decreases Size(a), 0
  {
    match (a, b)
    case (Obj(f), Obj(g)) => AgreeFields(f, g)
    case (Arr(i), Arr(j)) => AgreeItems(i, j)
    case _ => a == b
  }

  predicate AgreeItems(i: Items, j: Items)
    decreases ItemsSize(i), 0
  {
    match (i, j)
    case (Item(v, r), Item(w, s)) => Agree(v, w) && AgreeItems(r, s)
    case _ => i == j
  }

  predicate AgreeFields(f: Fields, g: Fields)
    decreases FieldsSize(f), 0
  {
    match (f, g)
    case (Field(k, v, r), Field(l, w, s)) => k == l && AgreeUnder(k, v, w) && AgreeFields(r, s)
    case _ => f == g
  }

  predicate AgreeUnder(key: string, v: Json, w: Json)
    decreases Size(v), 1
  {
    match MeaningOf(key)
    case Command => true
    case Sensitive => true
    case Secrets => if v.Arr? && w.Arr? then AgreeSecrets(v.items, w.items) else Agree(v, w)
    case Plain => Agree(v, w)
  }

  predicate AgreeSecrets(i: Items, j: Items)
    decreases ItemsSize(i), 1
  {
    match (i, j)
    case (Item(v, r), Item(w, s)) =>
      && (if v.Obj? && w.Obj? then AgreeSecret(v.fields, w.fields) else Agree(v, w))
      && AgreeSecrets(r, s)
    case _ => i == j
  }

  predicate AgreeSecret(f: Fields, g: Fields)
    decreases FieldsSize(f), 1
  {
    match (f, g)
    case (Field(k, v, r), Field(l, w, s)) => k == l && (k == "value" || AgreeUnder(k, v, w)) && AgreeSecret(r, s)
    case _ => f == g
  }

  /** Two values redact to the same exactly if they agree outside what has to be hidden. */
  lemma {:induction false} RedactsAlikeExactly(a: Json, b: Json)
    ensures Redact(a) == Redact(b) <==> Agree(a, b)
    decreases Size(a), 0
  {
    hide MeaningOf;
    match (a, b)
    case (Obj(f), Obj(g)) => FieldsRedactAlike(f, g);
    case (Arr(i), Arr(j)) => ItemsRedactAlike(i, j);
    case _ =>
  }

  lemma {:induction false} ItemsRedactAlike(i: Items, j: Items)
    ensures RedactItems(i) == RedactItems(j) <==> AgreeItems(i, j)
    decreases ItemsSize(i), 0
  {
    match (i, j)
    case (Item(v, r), Item(w, s)) =>
      RedactsAlikeExactly(v, w);
      ItemsRedactAlike(r, s);
    case _ =>
  }

  lemma {:induction false} FieldsRedactAlike(f: Fields, g: Fields)
    ensures RedactFields(f) == RedactFields(g) <==> AgreeFields(f, g)
    decreases FieldsSize(f), 0
  {
    match (f, g)
    case (Field(k, v, r), Field(l, w, s)) =>
      UnderRedactsAlike(k, v, w);
      FieldsRedactAlike(r, s);
    case _ =>
  }

  lemma {:induction false} UnderRedactsAlike(key: string, v: Json, w: Json)
    ensures RedactUnder(key, v) == RedactUnder(key, w) <==> AgreeUnder(key, v, w)
    decreases Size(v), 1
  {
    hide MeaningOf;
    RedactsAlikeExactly(v, w);
    if v.Arr? && w.Arr? {
      SecretsRedactAlike(v.items, w.items);
    }
  }

  lemma {:induction false} SecretsRedactAlike(i: Items, j: Items)
    ensures RedactItems(MaskItems(i)) == RedactItems(MaskItems(j)) <==> AgreeSecrets(i, j)
    decreases ItemsSize(i), 1
  {
    hide MeaningOf;
    match (i, j)
    case (Item(v, r), Item(w, s)) =>
      SecretsRedactAlike(r, s);
      RedactsAlikeExactly(v, w);
      if v.Obj? && w.Obj? {
        SecretRedactsAlike(v.fields, w.fields);
      }
    case _ =>
  }

  lemma {:induction false} SecretRedactsAlike(f: Fields, g: Fields)
    ensures RedactFields(MaskFields(f)) == RedactFields(MaskFields(g)) <==> AgreeSecret(f, g)
    decreases FieldsSize(f), 1
  {
    hide MeaningOf;
    match (f, g)
    case (Field(k, v, r), Field(l, w, s)) =>
      SecretRedactsAlike(r, s);
      UnderRedactsAlike(k, v, w);
    case _ =>
  }

  /** Nothing is changed that does not have to be hidden. */
  lemma RedactChangesNothingElse(v: Json)
    ensures Agree(v, Redact(v))
  {
    RedactIsIdempotent(v);
    RedactsAlikeExactly(v, Redact(v));
  }

  // ---- What can be left after redaction ----

  /** Each element of a secrets array has its own "value" replaced. */
  predicate MaskedFields(fields: Fields) {
    match fields
    case NoFields => true
    case Field(key, v, rest) => (key == "value" ==> v == REDACTED) && MaskedFields(rest)
  }

  predicate MaskedItems(items: Items) {
    match items
    case NoItems => true
    case Item(v, rest) => (v.Obj? ==> MaskedFields(v.fields)) && MaskedItems(rest)
  }

  /** Nothing but the two replacement values is left where something has to be hidden. */
  predicate Clean(v: Json)
    decreases Size(v), 0
  {
    match v
    case Obj(fields) => CleanFields(fields)
    case Arr(items) => CleanItems(items)
    case _ => true
  }

  predicate CleanItems(items: Items)
    decreases ItemsSize(items), 0
  {
    match items
    case NoItems => true
    case Item(v, rest) => Clean(v) && CleanItems(rest)
  }

  predicate CleanFields(fields: Fields)
    decreases FieldsSize(fields), 0
  {
    match fields
    case NoFields => true
    case Field(key, v, rest) => CleanUnder(key, v) && CleanFields(rest)
  }

  predicate CleanUnder(key: string, v: Json)
    decreases Size(v), 1
  {
    && (SameWord(key, "command") ==> v == REDACTED_COMMAND)
    && (SameWord(key, "secrets") ==> Clean(v) && (v.Arr? ==> MaskedItems(v.items)))
    && (!SameWord(key, "command") && !SameWord(key, "secrets") ==>
        if SensitiveWords(key) then v == REDACTED else Clean(v))
  }

  lemma {:induction false} MaskedWhenFixed(fields: Fields)
    requires MaskFields(fields) == fields
    ensures MaskedFields(fields)
  {
    match fields
    case NoFields =>
    case Field(_, _, rest) => MaskedWhenFixed(rest);
  }

  lemma {:induction false} ItemsMaskedWhenFixed(items: Items)
    requires MaskItems(items) == items
    ensures MaskedItems(items)
  {
    match items
    case NoItems =>
    case Item(v, rest) =>
      ItemsMaskedWhenFixed(rest);
      if v.Obj? {
        MaskedWhenFixed(v.fields);
      }
  }

  /** Whatever the tree, no sensitive value survives: not under a key in any case, nor in a secret. */
  lemma {:induction false} RedactIsClean(v: Json)
    ensures Clean(Redact(v))
    decreases Size(v), 0
  {
    match v
    case Obj(fields) => RedactFieldsIsClean(fields);
    case Arr(items) => RedactItemsIsClean(items);
    case _ =>
  }

  lemma {:induction false} RedactItemsIsClean(items: Items)
    ensures CleanItems(RedactItems(items))
    decreases ItemsSize(items), 0
  {
    match items
    case NoItems =>
    case Item(v, rest) =>
      RedactIsClean(v);
      RedactItemsIsClean(rest);
  }

  lemma {:induction false} RedactFieldsIsClean(fields: Fields)
    ensures CleanFields(RedactFields(fields))
    decreases FieldsSize(fields), 0
  {
    match fields
    case NoFields =>
    case Field(key, v, rest) =>
      RedactFieldsIsClean(rest);
      RedactUnderIsClean(key, v);
  }

  lemma {:induction false} RedactUnderIsClean(key: string, v: Json)
    ensures CleanUnder(key, RedactUnder(key, v))
    decreases Size(v), 1
  {
    hide MeaningOf, SameWord, SensitiveWords;
    MeaningExactly(key);
    RedactIsClean(v);
    RedactIsClean(Mask(v));
    StaysMasked(v);
    if Redact(Mask(v)).Arr? {
      ItemsMaskedWhenFixed(Redact(Mask(v)).items);
    }
  }
}
