/** The key/value message of the example Raft application: two immutable
    strings and their fixed printed form. */
module KeyValueMessage {
  import opened Wrappers

  /** Both fields are set once by the constructor; a datatype value never changes. */
  datatype KeyValue = KeyValue(key: string, value: string) {
    function GetKey(): string {
      key
    }

    function GetValue(): string {
      value
    }

    /** `KeyValue{key='<key>', value='<value>'}`. */
    function ToString(): string {
      "KeyValue{" + "key='" + key + "'" + ", value='" + value + "'" + "}"
    }
  }

  const Prefix: string := "KeyValue{key='"
  const Separator: string := "', value='"
  const Suffix: string := "'}"

  /** The printed form, split at the places where the fields go. */
  lemma ToStringPieces(kv: KeyValue)
    ensures kv.ToString() == Prefix + kv.key + Separator + kv.value + Suffix
  {
  }

  /** The index of the first single quote in `s`, or `|s|` when there is none. */
  function FirstQuote(s: string): (i: nat)
    ensures i <= |s|
    ensures forall j :: 0 <= j < i ==> s[j] != '\''
    ensures i < |s| ==> s[i] == '\''
  {
    if s == [] then 0
    else if s[0] == '\'' then 0
    else 1 + FirstQuote(s[1..])
  }

  /** Reads a printed key/value back: the key ends at the first quote after the
      prefix, the value runs up to the closing suffix. */
  function Parse(s: string): Option<KeyValue> {
    if |s| < |Prefix| + |Suffix| || s[..|Prefix|] != Prefix || s[|s| - |Suffix|..] != Suffix then None
    else ParseFields(s[|Prefix|..|s| - |Suffix|])
  }

  /** Splits `<key>', value='<value>` at the first quote. */
  function ParseFields(body: string): Option<KeyValue> {
    var i := FirstQuote(body);
    if i + |Separator| <= |body| && body[i..i + |Separator|] == Separator
    then Some(KeyValue(body[..i], body[i + |Separator|..]))
    else None
  }

  /** A sequence is its three consecutive slices put together. */
  lemma Slices(s: string, a: nat, b: nat)
    requires a <= b <= |s|
    ensures s == s[..a] + s[a..b] + s[b..]
  {
  }

  /** The fields are found again in their printed form when the key has no quote. */
  lemma ParseFieldsOfFields(kv: KeyValue)
    requires '\'' !in kv.key
    ensures ParseFields(kv.key + Separator + kv.value) == Some(kv)
  {
    var body := kv.key + Separator + kv.value;
    var i := FirstQuote(body);
    assert body[|kv.key|] == '\'';
    assert forall j :: 0 <= j < |kv.key| ==> body[j] == kv.key[j];
    assert i == |kv.key|;
    assert body[i..i + |Separator|] == Separator;
    assert body[..i] == kv.key;
    assert body[i + |Separator|..] == kv.value;
  }

  /** Whatever `ParseFields` finds prints back to its input, with a quote-free key. */
  lemma FieldsOfParseFields(body: string, kv: KeyValue)
    requires ParseFields(body) == Some(kv)
    ensures body == kv.key + Separator + kv.value
    ensures '\'' !in kv.key
  {
    var i := FirstQuote(body);
    Slices(body, i, i + |Separator|);
    assert forall j :: 0 <= j < |kv.key| ==> kv.key[j] == body[j];
  }

  /** A key without quotes is read back from the printed form, and so is the value. */
  lemma ParseToString(kv: KeyValue)
    requires '\'' !in kv.key
    ensures Parse(kv.ToString()) == Some(kv)
  {
    var s := kv.ToString();
    ToStringPieces(kv);
    var body := kv.key + Separator + kv.value;
    assert s == Prefix + body + Suffix;
    assert s[..|Prefix|] == Prefix;
    assert s[|s| - |Suffix|..] == Suffix;
    assert s[|Prefix|..|s| - |Suffix|] == body;
    ParseFieldsOfFields(kv);
  }

  /** Whatever is read back prints as the text it was read from, and its key has no quote. */
  lemma ToStringParse(s: string, kv: KeyValue)
    requires Parse(s) == Some(kv)
    ensures kv.ToString() == s
    ensures '\'' !in kv.key
  {
    assert |s| >= |Prefix| + |Suffix| && s[..|Prefix|] == Prefix && s[|s| - |Suffix|..] == Suffix;
    var body := s[|Prefix|..|s| - |Suffix|];
    FieldsOfParseFields(body, kv);
    Slices(s, |Prefix|, |s| - |Suffix|);
    assert s == Prefix + (kv.key + Separator + kv.value) + Suffix;
    ToStringPieces(kv);
  }

  /** Two messages whose keys have no quote print alike only when they are equal. */
  lemma ToStringInjective(a: KeyValue, b: KeyValue)
    requires '\'' !in a.key && '\'' !in b.key
    requires a.ToString() == b.ToString()
    ensures a == b
  {
    ParseToString(a);
    ParseToString(b);
  }

  /** With a quote in the key, two different messages print alike. */
  lemma ToStringAmbiguous()
    ensures KeyValue("a', value='b", "c").ToString() == KeyValue("a", "b', value='c").ToString()
    ensures KeyValue("a', value='b", "c") != KeyValue("a", "b', value='c")
  {
  }

  /** The getters return what the constructor was given. */
  lemma Accessors(key: string, value: string)
    ensures KeyValue(key, value).GetKey() == key
    ensures KeyValue(key, value).GetValue() == value
  {
  }
}
