/**
 * The binding password (generate_random in src/broker/broker.py): 20 symbols, each
 * chosen from ascii_uppercase + ascii_lowercase + digits. The secure random choice is
 * a nondeterministic pick from the charset; its distribution is not modelled.
 */
module Secret {

  const SecretLength := 20

  /** The n consecutive characters starting at `first`. */
  function CharsFrom(first: char, n: nat): (s: string)
    requires first as int + n < 0xD800
    ensures |s| == n
    decreases n
  {
    if n == 0 then [] else [first] + CharsFrom((first as int + 1) as char, n - 1)
  }

  const AsciiUppercase := CharsFrom('A', 26)
  const AsciiLowercase := CharsFrom('a', 26)
  const Digits := CharsFrom('0', 10)
  const Charset := AsciiUppercase + AsciiLowercase + Digits

  predicate IsAlphanumeric(c: char) {
    'A' <= c <= 'Z' || 'a' <= c <= 'z' || '0' <= c <= '9'
  }

  lemma {:induction false} CharsFromAt(first: char, n: nat, i: nat)
    requires first as int + n < 0xD800
    requires i < n
    ensures CharsFrom(first, n)[i] as int == first as int + i
    decreases n
  {
    if i > 0 {
      CharsFromAt((first as int + 1) as char, n - 1, i - 1);
    }
  }

  lemma CharsFromMembership(first: char, n: nat, c: char)
    requires first as int + n < 0xD800
    ensures c in CharsFrom(first, n) <==> first as int <= c as int < first as int + n
  {
    var s := CharsFrom(first, n);
    if c in s {
      var i :| 0 <= i < n && s[i] == c;
      CharsFromAt(first, n, i);
    }
    if first as int <= c as int < first as int + n {
      CharsFromAt(first, n, c as int - first as int);
    }
  }

  /** The charset has 62 symbols, beginning with 'A'. */
  lemma CharsetSize()
    ensures |Charset| == 62
    ensures Charset[0] == 'A' && 'A' in Charset
  {
    CharsFromAt('A', 26, 0);
  }

  /** The charset's symbols are exactly the ASCII letters and digits. */
  lemma CharsetIsAlphanumeric(c: char)
    ensures c in Charset <==> IsAlphanumeric(c)
  {
    CharsFromMembership('A', 26, c);
    CharsFromMembership('a', 26, c);
    CharsFromMembership('0', 10, c);
  }

  /** No symbol occurs twice: a choice from the charset ranges over 62 distinct characters. */
  lemma CharsetDistinct(i: nat, j: nat)
    requires i < j < |Charset|
    ensures Charset[i] != Charset[j]
  {
    if i < 26 { CharsFromAt('A', 26, i); } else if i < 52 { CharsFromAt('a', 26, i - 26); } else { CharsFromAt('0', 10, i - 52); }
    if j < 26 { CharsFromAt('A', 26, j); } else if j < 52 { CharsFromAt('a', 26, j - 26); } else { CharsFromAt('0', 10, j - 52); }
  }

  method GenerateRandom() returns (secret: string)
    ensures |secret| == SecretLength
    ensures forall i :: 0 <= i < |secret| ==> secret[i] in Charset && IsAlphanumeric(secret[i])
  {
    CharsetSize();
    secret := [];
    for k := 0 to SecretLength
      invariant |secret| == k
      invariant forall i :: 0 <= i < |secret| ==> secret[i] in Charset && IsAlphanumeric(secret[i])
    {
      var c :| c in Charset;
      CharsetIsAlphanumeric(c);
      secret := secret + [c];
    }
  }
}
