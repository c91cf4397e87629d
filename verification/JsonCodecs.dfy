/** Decoders and encoders on JSON values, and what makes them inverse. */
module JsonCodecs {
  import opened Common
  import opened JsonValues

  // The decoder accepts exactly the encodings of the valid values.
  ghost predicate Inverse<T(!new)>(decode: Json -> Option<T>, encode: T -> Json, valid: T -> bool) {
    forall j, t :: decode(j) == Some(t) <==> valid(t) && j == encode(t)
  }

  predicate Any<T>(t: T) {
    true
  }

  // ---- text ---------------------------------------------------------------

  function DecodeText(j: Json): Option<string> {
    if j.Str? then Some(j.s) else None
  }

  function EncodeText(s: string): Json {
    Str(s)
  }

  lemma TextInverse()
    ensures Inverse(DecodeText, EncodeText, Any<string>)
  {
  }

  // ---- lists --------------------------------------------------------------

  function DecodeAll<T>(decode: Json -> Option<T>, js: seq<Json>): Option<seq<T>> {
    if js == [] then Some([])
    else
      var front :- DecodeAll(decode, js[..|js| - 1]);
      var last :- decode(js[|js| - 1]);
      Some(front + [last])
  }

  function EncodeAll<T>(encode: T -> Json, ts: seq<T>): (js: seq<Json>)
    ensures |js| == |ts| && forall i :: 0 <= i < |ts| ==> js[i] == encode(ts[i])
  {
    seq(|ts|, i requires 0 <= i < |ts| => encode(ts[i]))
  }

  function DecodeList<T>(decode: Json -> Option<T>, j: Json): Option<seq<T>> {
    if j.Arr? then DecodeAll(decode, j.items) else None
  }

  function EncodeList<T>(encode: T -> Json, ts: seq<T>): Json {
    Arr(EncodeAll(encode, ts))
  }

  predicate Every<T>(valid: T -> bool, ts: seq<T>) {
    forall i :: 0 <= i < |ts| ==> valid(ts[i])
  }

  // A list decodes element by element.
  lemma {:induction false} DecodeAllMeans<T>(decode: Json -> Option<T>, js: seq<Json>, ts: seq<T>)
    ensures DecodeAll(decode, js) == Some(ts) <==>
            |js| == |ts| && forall i :: 0 <= i < |js| ==> decode(js[i]) == Some(ts[i])
  {
    if js != [] && ts != [] {
      var n, m := |js| - 1, |ts| - 1;
      DecodeAllMeans(decode, js[..n], ts[..m]);
      assert ts == ts[..m] + [ts[m]];
      if n == m {
        assert (forall i :: 0 <= i < n ==> decode(js[..n][i]) == Some(ts[..m][i])) <==>
               (forall i :: 0 <= i < n ==> decode(js[i]) == Some(ts[i]));
      }
      if DecodeAll(decode, js) == Some(ts) {
        assert ts == DecodeAll(decode, js[..n]).value + [decode(js[n]).value];
        assert ts[..m] == DecodeAll(decode, js[..n]).value;
      }
    }
  }

  lemma ListInverse<T(!new)>(decode: Json -> Option<T>, encode: T -> Json, valid: T -> bool, j: Json, ts: seq<T>)
    requires Inverse(decode, encode, valid)
    ensures DecodeList(decode, j) == Some(ts) <==> Every(valid, ts) && j == EncodeList(encode, ts)
  {
    if j.Arr? {
      DecodeAllMeans(decode, j.items, ts);
      if Every(valid, ts) && |j.items| == |ts| {
        assert j.items == EncodeAll(encode, ts) <==> forall i :: 0 <= i < |ts| ==> j.items[i] == encode(ts[i]);
      }
      if DecodeList(decode, j) == Some(ts) {
        assert j.items == EncodeAll(encode, ts);
      }
    }
  }

  // ---- dictionaries -------------------------------------------------------

  function DecodeMap<T>(decode: Json -> Option<T>, j: Json): Option<map<string, T>> {
    if j.Obj? && forall k :: k in j.fields ==> decode(j.fields[k]).Some?
    then Some(map k | k in j.fields :: decode(j.fields[k]).value)
    else None
  }

  function EncodeMap<T>(encode: T -> Json, m: map<string, T>): Json {
    Obj(map k | k in m :: encode(m[k]))
  }

  predicate EveryValue<T>(valid: T -> bool, m: map<string, T>) {
    forall k :: k in m ==> valid(m[k])
  }

  lemma MapInverse<T(!new)>(decode: Json -> Option<T>, encode: T -> Json, valid: T -> bool, j: Json, m: map<string, T>)
    requires Inverse(decode, encode, valid)
    ensures DecodeMap(decode, j) == Some(m) <==> EveryValue(valid, m) && j == EncodeMap(encode, m)
  {
    if DecodeMap(decode, j) == Some(m) {
      assert forall k :: k in m ==> decode(j.fields[k]) == Some(m[k]);
      assert j.fields == EncodeMap(encode, m).fields;
    }
    if EveryValue(valid, m) && j == EncodeMap(encode, m) {
      assert forall k :: k in m ==> decode(j.fields[k]) == Some(m[k]);
      assert DecodeMap(decode, j).value == m;
    }
  }

  // ---- records ------------------------------------------------------------

  // Every field of the part is in the object with that value.
  predicate Agrees(fields: map<string, Json>, part: map<string, Json>) {
    forall k :: k in part ==> k in fields && fields[k] == part[k]
  }

  lemma AgreesExactly(fields: map<string, Json>, whole: map<string, Json>)
    requires fields.Keys == whole.Keys
    ensures Agrees(fields, whole) <==> fields == whole
  {
  }

  lemma AgreesSum(fields: map<string, Json>, a: map<string, Json>, b: map<string, Json>)
    requires a.Keys !! b.Keys
    ensures Agrees(fields, a + b) <==> Agrees(fields, a) && Agrees(fields, b)
  {
    if Agrees(fields, a + b) {
      forall k | k in a ensures k in fields && fields[k] == a[k] {
        assert k in a + b;
      }
      forall k | k in b ensures k in fields && fields[k] == b[k] {
        assert k in a + b;
      }
    }
  }
}
