/** Uploading SSH keys by fingerprint (pkg/hcloud/hcloud.go). */
module SshKeys {
  import opened Wrappers
  import opened Labels

  // ---------------------------------------------------------------------------
  // Fingerprints
  // ---------------------------------------------------------------------------

  type Octet = n: int | 0 <= n < 256

  /** An MD5 digest. */
  type Digest = d: seq<Octet> | |d| == 16 witness seq(16, _ => 0)

  /** base64.StdEncoding.DecodeString (None is its error) and md5.Sum, as parameters. */
  datatype Codec = Codec(decode: string -> Option<seq<Octet>>, sum: seq<Octet> -> Digest)

  /** unicode.IsSpace. */
  predicate IsSpace(c: char) {
    || c in "\t\n \r" || c == '\U{000B}' || c == '\U{000C}' || c == '\U{0085}' || c == '\U{00A0}'
    || c == '\U{1680}' || '\U{2000}' <= c <= '\U{200A}' || c == '\U{2028}' || c == '\U{2029}'
    || c == '\U{202F}' || c == '\U{205F}' || c == '\U{3000}'
  }

  predicate AllSpaces(s: string) {
    forall c | c in s :: IsSpace(c)
  }

  /** A field: not empty and free of spaces. */
  predicate IsField(s: string) {
    s != "" && forall c | c in s :: !IsSpace(c)
  }

  /** Length of the run of non-spaces at the front. */
  function FieldRun(s: string): (n: nat)
    ensures n <= |s| && forall i | 0 <= i < n :: !IsSpace(s[i])
    ensures n < |s| ==> IsSpace(s[n])
    ensures s != "" && !IsSpace(s[0]) ==> n > 0
  {
    if s == "" || IsSpace(s[0]) then 0 else 1 + FieldRun(s[1..])
  }

  /** strings.Fields. */
  function Fields(s: string): seq<string>
    decreases |s|
  {
    if s == "" then []
    else if IsSpace(s[0]) then Fields(s[1..])
    else
      var n := FieldRun(s);
      [s[..n]] + Fields(s[n..])
  }

  function HexDigit(n: nat): char
    requires n < 16
  {
    if n < 10 then '0' + n as char else 'a' + (n - 10) as char
  }

  /** fmt.Sprintf("%02x", o). */
  function Hex(o: Octet): string {
    [HexDigit(o / 16), HexDigit(o % 16)]
  }

  /** Octets in hexadecimal with colons between them. */
  function HexText(octets: seq<Octet>): string {
    if octets == [] then ""
    else
      var n := |octets| - 1;
      if n == 0 then Hex(octets[0]) else HexText(octets[..n]) + ":" + Hex(octets[n])
  }

  function Fingerprint(codec: Codec, publicKey: string): Option<string> {
    var parts := Fields(publicKey);
    if |parts| < 2 then None
    else match codec.decode(parts[1])
      case None => None
      case Some(blob) => Some(HexText(codec.sum(blob)))
  }

  /** generateSSHKeyFingerprint; None is its error. */
  method GenerateSSHKeyFingerprint(codec: Codec, publicKey: string) returns (fingerprint: Option<string>)
    ensures fingerprint == Fingerprint(codec, publicKey)
  {
    var parts := Fields(publicKey);
    if |parts| < 2 {
      return None;
    }
    var k := codec.decode(parts[1]);
    if k == None {
      return None;
    }
    var fp: Digest := codec.sum(k.value);
    var text := "";
    for i := 0 to |fp|
      invariant 0 < i < |fp| ==> text == HexText(fp[..i]) + ":"
      invariant i == 0 || i == |fp| ==> text == HexText(fp[..i])
    {
      assert fp[..i + 1][..i] == fp[..i];
      text := text + Hex(fp[i]);
      if i < |fp| - 1 {
        text := text + ":";
      }
    }
    assert fp[..|fp|] == fp;
    fingerprint := Some(text);
  }

  function HexValue(c: char): nat {
    if '0' <= c <= '9' then (c - '0') as int
    else if 'a' <= c <= 'f' then 10 + (c - 'a') as int
    else 0
  }

  /** Section 4 of RFC 4716: the octets of a fingerprint text sit at every third position. */
  function OctetAt(text: string, i: nat): int
    requires 3 * i + 1 < |text|
  {
    16 * HexValue(text[3 * i]) + HexValue(text[3 * i + 1])
  }

  lemma HexInverts(o: Octet)
    ensures |Hex(o)| == 2 && OctetAt(Hex(o), 0) == o
  {
  }

  /** Appending one more octet keeps the others where they are and puts the new one last. */
  lemma OctetAppended(front: string, o: Octet, n: nat, i: nat)
    requires n > 0 && |front| == 3 * n - 1 && i <= n
    ensures var text := front + ":" + Hex(o);
            |text| == 3 * n + 2 && OctetAt(text, i) == if i < n then OctetAt(front, i) else o
  {
  }

  lemma {:induction false} HexTextLength(octets: seq<Octet>)
    requires octets != []
    ensures |HexText(octets)| == 3 * |octets| - 1
  {
    var n := |octets| - 1;
    if n > 0 {
      HexTextLength(octets[..n]);
    }
  }

  /** Every octet can be read back from the printed text. */
  lemma {:induction false} HexTextInverts(octets: seq<Octet>, i: nat)
    requires i < |octets|
    ensures |HexText(octets)| == 3 * |octets| - 1 && OctetAt(HexText(octets), i) == octets[i]
  {
    var n := |octets| - 1;
    HexTextLength(octets);
    if n == 0 {
      HexInverts(octets[0]);
    } else {
      HexTextLength(octets[..n]);
      OctetAppended(HexText(octets[..n]), octets[n], n, i);
      if i < n {
        HexTextInverts(octets[..n], i);
      }
    }
  }

  /** The fingerprint text is invertible: it has 47 characters and determines the digest. */
  lemma FingerprintInverts(a: Digest, b: Digest)
    ensures |HexText(a)| == 47
    ensures HexText(a) == HexText(b) <==> a == b
  {
    HexTextLength(a);
    if HexText(a) == HexText(b) {
      forall i | 0 <= i < 16
        ensures a[i] == b[i]
      {
        HexTextInverts(a, i);
        HexTextInverts(b, i);
      }
    }
  }

  lemma {:induction false} FieldsSkipSpaces(spaces: string, s: string)
    requires AllSpaces(spaces)
    ensures Fields(spaces + s) == Fields(s)
  {
    if spaces == "" {
      assert spaces + s == s;
    } else {
      assert (spaces + s)[1..] == spaces[1..] + s;
      FieldsSkipSpaces(spaces[1..], s);
    }
  }

  lemma {:induction false} FieldRunOf(field: string, rest: string)
    requires (forall c | c in field :: !IsSpace(c)) && (rest == "" || IsSpace(rest[0]))
    ensures FieldRun(field + rest) == |field|
  {
    if field == "" {
      assert field + rest == rest;
    } else {
      assert (field + rest)[1..] == field[1..] + rest;
      FieldRunOf(field[1..], rest);
    }
  }

  lemma FieldsTakeField(field: string, rest: string)
    requires IsField(field) && (rest == "" || IsSpace(rest[0]))
    ensures Fields(field + rest) == [field] + Fields(rest)
  {
    FieldRunOf(field, rest);
    assert (field + rest)[0] == field[0];
    assert (field + rest)[..|field|] == field && (field + rest)[|field|..] == rest;
  }

  /** The text of a key: spacing, a type word, spacing, the key proper, and then anything. */
  ghost predicate IsKeyText(text: string, body: string) {
    exists lead, word, gap, tail :: KeyText(text, lead, word, gap, body, tail)
  }

  ghost predicate KeyText(text: string, lead: string, word: string, gap: string, body: string, tail: string) {
    && AllSpaces(lead) && IsField(word) && AllSpaces(gap) && gap != "" && IsField(body)
    && (tail == "" || IsSpace(tail[0]))
    && text == lead + (word + (gap + (body + tail)))
  }

  lemma BodyIsSecondField(text: string, body: string)
    requires IsKeyText(text, body)
    ensures |Fields(text)| >= 2 && Fields(text)[1] == body
  {
    var lead, word, gap, tail :| KeyText(text, lead, word, gap, body, tail);
    FieldsSkipSpaces(lead, word + (gap + (body + tail)));
    FieldsTakeField(word, gap + (body + tail));
    FieldsSkipSpaces(gap, body + tail);
    FieldsTakeField(body, tail);
  }

  /** Keys that differ only in type word, comment or spacing have the same fingerprint. */
  lemma FingerprintIsCanonical(codec: Codec, a: string, b: string, body: string)
    requires IsKeyText(a, body) && IsKeyText(b, body)
    ensures Fingerprint(codec, a) == Fingerprint(codec, b)
  {
    BodyIsSecondField(a, body);
    BodyIsSecondField(b, body);
  }

  /** Where the first field is. */
  lemma {:induction false} FirstField(s: string) returns (lead: string, field: string, rest: string)
    requires Fields(s) != []
    ensures AllSpaces(lead) && IsField(field) && (rest == "" || IsSpace(rest[0]))
    ensures s == lead + (field + rest) && Fields(s) == [field] + Fields(rest)
    decreases |s|
  {
    if IsSpace(s[0]) {
      lead, field, rest := FirstField(s[1..]);
      lead := [s[0]] + lead;
    } else {
      var n := FieldRun(s);
      lead, field, rest := "", s[..n], s[n..];
    }
  }

  /** A text with two fields is the text of a key, whose body is the second. */
  lemma SecondFieldIsBody(text: string)
    requires |Fields(text)| >= 2
    ensures IsKeyText(text, Fields(text)[1])
  {
    var lead, word, rest := FirstField(text);
    var gap, body, tail := FirstField(rest);
    assert rest[0] == (gap + body)[0];
    assert KeyText(text, lead, word, gap, body, tail);
  }

  const HEX_CHARS := "0123456789abcdef"

  /** What the fingerprint of a key is: the octets of the digest of its decoded body, in lower-case
      hexadecimal with colons between them (section 4 of RFC 4716). */
  lemma FingerprintOfKey(codec: Codec, text: string, body: string)
    requires IsKeyText(text, body)
    ensures Fingerprint(codec, text).Some? <==> codec.decode(body).Some?
    ensures Fingerprint(codec, text).Some? ==>
              var printed := Fingerprint(codec, text).value;
              && |printed| == 47
              && (forall i | 0 <= i < 16 :: OctetAt(printed, i) == codec.sum(codec.decode(body).value)[i])
              && (forall i | 0 <= i < 15 :: printed[3 * i + 2] == ':')
              && (forall i | 0 <= i < 16 :: printed[3 * i] in HEX_CHARS && printed[3 * i + 1] in HEX_CHARS)
  {
    BodyIsSecondField(text, body);
    if codec.decode(body).Some? {
      var digest := codec.sum(codec.decode(body).value);
      forall i | 0 <= i < 16
        ensures |HexText(digest)| == 47 && OctetAt(HexText(digest), i) == digest[i]
        ensures HexText(digest)[3 * i] in HEX_CHARS && HexText(digest)[3 * i + 1] in HEX_CHARS
        ensures i < 15 ==> HexText(digest)[3 * i + 2] == ':'
      {
        HexTextInverts(digest, i);
        HexTextLayout(digest, i);
      }
    }
  }

  /** Only texts with a body that decodes have a fingerprint. */
  lemma FingerprintExists(codec: Codec, text: string)
    ensures Fingerprint(codec, text).Some? <==> exists body :: IsKeyText(text, body) && codec.decode(body).Some?
  {
    if Fingerprint(codec, text).Some? {
      SecondFieldIsBody(text);
    }
    if body :| IsKeyText(text, body) && codec.decode(body).Some? {
      BodyIsSecondField(text, body);
    }
  }

  lemma {:induction false} HexTextLayout(octets: seq<Octet>, i: nat)
    requires i < |octets|
    ensures |HexText(octets)| == 3 * |octets| - 1
    ensures HexText(octets)[3 * i] in HEX_CHARS && HexText(octets)[3 * i + 1] in HEX_CHARS
    ensures i < |octets| - 1 ==> HexText(octets)[3 * i + 2] == ':'
  {
    var n := |octets| - 1;
    HexTextLength(octets);
    HexLayout(octets[n]);
    if n > 0 {
      HexTextLength(octets[..n]);
      if i < n {
        HexTextLayout(octets[..n], i);
      }
    }
  }

  lemma HexLayout(o: Octet)
    ensures |Hex(o)| == 2 && Hex(o)[0] in HEX_CHARS && Hex(o)[1] in HEX_CHARS
  {
    assert HEX_CHARS[o / 16] == HexDigit(o / 16) && HEX_CHARS[o % 16] == HexDigit(o % 16);
  }

  // ---------------------------------------------------------------------------
  // Upsert
  // ---------------------------------------------------------------------------

  datatype SSHKey = SSHKey(id: int, fingerprint: string, publicKey: string, labels: LabelMap)

  function FingerprintsOf(keys: seq<SSHKey>): set<string> {
    set k | k in keys :: k.fingerprint
  }

  /** The store only grows, and no key it gains has a fingerprint that was there before it. */
  ghost predicate Grows(before: seq<SSHKey>, after: seq<SSHKey>) {
    && before <= after
    && forall i | |before| <= i < |after| :: after[i].fingerprint !in FingerprintsOf(after[..i])
  }

  ghost predicate NoDuplicates(keys: seq<SSHKey>) {
    forall i, j | 0 <= i < j < |keys| :: keys[i].fingerprint != keys[j].fingerprint
  }

  /** Any number of calls, failed ones and repeats included, grow the store like one. */
  lemma GrowthComposes(a: seq<SSHKey>, b: seq<SSHKey>, c: seq<SSHKey>)
    requires Grows(a, b) && Grows(b, c)
    ensures Grows(a, c)
  {
  }

  lemma GrowthKeepsDistinct(before: seq<SSHKey>, after: seq<SSHKey>)
    requires Grows(before, after) && NoDuplicates(before)
    ensures NoDuplicates(after)
  {
  }

  /** Growth is exact: the store gains one key for each fingerprint it lacked, and no other. */
  lemma {:induction false} GainIsExact(before: seq<SSHKey>, after: seq<SSHKey>, wanted: set<string>)
    requires Grows(before, after) && FingerprintsOf(after) == FingerprintsOf(before) + wanted
    ensures |after| - |before| == |wanted - FingerprintsOf(before)|
  {
    GainedCount(before, after);
    assert FingerprintsOf(after) - FingerprintsOf(before) == wanted - FingerprintsOf(before);
  }

  /** Growth, seen before its last key. */
  lemma GrewBefore(before: seq<SSHKey>, earlier: seq<SSHKey>, key: SSHKey)
    requires Grows(before, earlier + [key]) && before != earlier + [key]
    ensures Grows(before, earlier) && FingerprintsOf(before) <= FingerprintsOf(earlier)
    ensures FingerprintsOf(earlier + [key]) == FingerprintsOf(earlier) + {key.fingerprint}
    ensures key.fingerprint !in FingerprintsOf(earlier)
  {
    var after := earlier + [key];
    assert forall k :: k in after <==> k in earlier || k == key;
    assert forall i | 0 <= i <= |earlier| :: after[..i] == earlier[..i];
    assert after[..|earlier|] == earlier;
    assert before <= earlier;
    assert forall k | k in before :: k in earlier;
  }

  lemma {:induction false} GainedCount(before: seq<SSHKey>, after: seq<SSHKey>)
    requires Grows(before, after)
    ensures |FingerprintsOf(after) - FingerprintsOf(before)| == |after| - |before|
    decreases |after|
  {
    if before != after {
      var n := |after| - 1;
      var earlier, key := after[..n], after[n];
      assert after == earlier + [key];
      GrewBefore(before, earlier, key);
      GainedCount(before, earlier);
      OneMore(FingerprintsOf(earlier), FingerprintsOf(before), key.fingerprint);
    }
  }

  lemma OneMore(a: set<string>, b: set<string>, x: string)
    requires b <= a && x !in a
    ensures |a + {x} - b| == |a - b| + 1
  {
    assert a + {x} - b == (a - b) + {x};
  }

  /** Over any history of calls, successful, failed and repeated, the store that began without
      duplicates has none, and holds one key for each of its fingerprints. */
  lemma {:induction false} RetriesAddNoDuplicates(history: seq<seq<SSHKey>>)
    requires history != [] && NoDuplicates(history[0])
    requires forall i | 0 <= i < |history| - 1 :: Grows(history[i], history[i + 1])
    ensures Grows(history[0], history[|history| - 1])
    ensures NoDuplicates(history[|history| - 1])
    ensures |history[|history| - 1]| == |FingerprintsOf(history[|history| - 1])|
  {
    var n := |history| - 1;
    if n > 0 {
      RetriesAddNoDuplicates(history[..n]);
      assert Grows(history[n - 1], history[n - 1 + 1]);
      GrowthComposes(history[0], history[n - 1], history[n]);
      GrowthKeepsDistinct(history[0], history[n]);
    }
    GainedCount([], history[n]);
    assert FingerprintsOf(history[n]) - FingerprintsOf([]) == FingerprintsOf(history[n]);
  }

  /** The keys of the account.  The cloud fingerprints a key as the provider does. */
  class SshKeyCloud {
    var keys: seq<SSHKey>
    const codec: Codec
    /** How often a request has failed although there was nothing wrong with it. */
    ghost var faults: nat

    constructor (codec: Codec)
      ensures keys == [] && this.codec == codec && faults == 0
    {
      keys, this.codec, faults := [], codec, 0;
    }

    method Call() returns (failed: bool)
      modifies this`faults
      ensures if failed then faults > old(faults) else faults == old(faults)
    {
      failed := *;
      if failed {
        faults := faults + 1;
      }
    }

    method GetByFingerprint(fingerprint: string) returns (failed: bool, key: Option<SSHKey>)
      modifies this`faults
      ensures if failed then faults > old(faults) else faults == old(faults)
      ensures !failed && key.Some? ==> key.value in keys && key.value.fingerprint == fingerprint
      ensures !failed && key.None? ==> fingerprint !in FingerprintsOf(keys)
    {
      failed := Call();
      key := None;
      for i := 0 to |keys|
        invariant key.Some? ==> key.value in keys && key.value.fingerprint == fingerprint
        invariant key.None? ==> forall j | 0 <= j < i :: keys[j].fingerprint != fingerprint
      {
        if keys[i].fingerprint == fingerprint {
          key := Some(keys[i]);
        }
      }
    }

    method Create(publicKey: string, labels: LabelMap) returns (failed: bool, key: Option<SSHKey>)
      modifies this`keys, this`faults
      ensures faults >= old(faults)
      ensures !failed <==> faults == old(faults) && Fingerprint(codec, publicKey).Some?
      ensures keys == old(keys) || (|keys| == |old(keys)| + 1 && keys[..|old(keys)|] == old(keys) &&
                var k := keys[|old(keys)|];
                && Some(k.fingerprint) == Fingerprint(codec, publicKey)
                && k.publicKey == publicKey && k.labels == labels)
      ensures !failed ==> key.Some? && keys == old(keys) + [key.value]
    {
      failed := Call();
      key := None;
      var done: bool, id: int := *, *;
      var fingerprint := Fingerprint(codec, publicKey);
      if fingerprint == None {
        failed := true;
      } else if !failed || done {
        key := Some(SSHKey(id, fingerprint.value, publicKey, labels));
        keys := keys + [key.value];
      }
    }

    /** Every key the store has gained is one of `publicKeys`, with its fingerprint and the defaults for
        labels. */
    twostate predicate GainedOnly(publicKeys: seq<string>, now: int)
      reads this
    {
      && Grows(old(keys), keys) && FingerprintsOf(keys) <= FingerprintsOf(old(keys)) + Wanted(codec, publicKeys)
      && forall i | |old(keys)| <= i < |keys| ::
           && keys[i].labels == Defaults(now) && keys[i].publicKey in publicKeys
           && Some(keys[i].fingerprint) == Fingerprint(codec, keys[i].publicKey)
    }

    method UpsertSSHKey(publicKey: string, now: int) returns (key: Option<SSHKey>)
      modifies this`keys, this`faults
      ensures faults >= old(faults)
      ensures key.Some? <==> faults == old(faults) && Fingerprint(codec, publicKey).Some?
      ensures GainedOnly([publicKey], now)
      ensures key.Some? ==> key.value in keys && Some(key.value.fingerprint) == Fingerprint(codec, publicKey)
      ensures Fingerprint(codec, publicKey).None? ==> key.None? && keys == old(keys)
    {
      var fingerprint := GenerateSSHKeyFingerprint(codec, publicKey);
      if fingerprint == None {
        return None;
      }
      assert Wanted(codec, [publicKey]) == {fingerprint.value};
      var failed, sshKey := GetByFingerprint(fingerprint.value);
      if failed {
        return None;
      }
      if sshKey != None {
        return sshKey;
      }
      var labels := ApplyDefaultLabels(now, []);
      var uploaded;
      failed, uploaded := Create(publicKey, labels);
      assert keys == old(keys) || keys[..|old(keys)|] == old(keys);
      if failed {
        return None;
      }
      key := uploaded;
    }

    /** UpsertSSHKeys; None is its error. */
    method UpsertSSHKeys(publicKeys: seq<string>, now: int) returns (result: Option<seq<SSHKey>>)
      modifies this`keys, this`faults
      ensures faults >= old(faults)
      ensures result.Some? <==> faults == old(faults) && AllHaveFingerprints(codec, publicKeys)
      ensures GainedOnly(publicKeys, now)
      ensures result.Some? ==>
                && |result.value| == |publicKeys|
                && (forall i | 0 <= i < |publicKeys| ::
                      && result.value[i] in keys
                      && Some(result.value[i].fingerprint) == Fingerprint(codec, publicKeys[i]))
                && FingerprintsOf(keys) == FingerprintsOf(old(keys)) + Wanted(codec, publicKeys)
    {
      var sshKeys: seq<SSHKey> := [];
      for i := 0 to |publicKeys|
        invariant |sshKeys| == i
        invariant GainedOnly(publicKeys, now) && faults == old(faults)
        invariant forall j | 0 <= j < i ::
                    sshKeys[j] in keys && Some(sshKeys[j].fingerprint) == Fingerprint(codec, publicKeys[j])
      {
        ghost var before := keys;
        var sshKey := UpsertSSHKey(publicKeys[i], now);
        GrowthComposes(old(keys), before, keys);
        assert Wanted(codec, [publicKeys[i]]) <= Wanted(codec, publicKeys);
        if sshKey == None {
          return None;
        }
        sshKeys := sshKeys + [sshKey.value];
      }
      result := Some(sshKeys);
    }
  }

  /** None of the keys is malformed. */
  predicate AllHaveFingerprints(codec: Codec, publicKeys: seq<string>) {
    forall i | 0 <= i < |publicKeys| :: Fingerprint(codec, publicKeys[i]).Some?
  }

  /** The fingerprints of the keys that have one. */
  function Wanted(codec: Codec, publicKeys: seq<string>): set<string> {
    set k | k in publicKeys && Fingerprint(codec, k).Some? :: Fingerprint(codec, k).value
  }
}
