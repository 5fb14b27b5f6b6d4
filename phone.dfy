/**
 * Phone numbers: the `replace(/\D/g, '')` cleaning of an outbound phone and
 * the storage identifier `<phone>@s.whatsapp.net` under which a conversation
 * is recorded.
 */
module Phone {
  import opened Wrappers

  /** The fixed routing domain appended to every stored phone identifier. */
  const Suffix: string := "@s.whatsapp.net"

  /** `\d` of a JavaScript regular expression: the ASCII digits `[0-9]` only. */
  predicate IsDigit(c: char)
  {
    '0' <= c <= '9'
  }

  predicate AllDigits(s: string)
  {
    forall i :: 0 <= i < |s| ==> IsDigit(s[i])
  }

  /** `s.replace(/\D/g, '')`: every non-digit character removed, the digits kept in order. */
  function CleanPhone(s: string): (r: string)
    ensures AllDigits(r)
    ensures |r| <= |s|
  {
    if s == [] then []
    else if IsDigit(s[0]) then [s[0]] + CleanPhone(s[1..])
    else CleanPhone(s[1..])
  }

  /** `r` can be obtained from `s` by deleting characters (order kept). */
  predicate IsSubsequence(r: string, s: string)
    decreases |s|
  {
    if r == [] then true
    else if s == [] then false
    else (r[0] == s[0] && IsSubsequence(r[1..], s[1..])) || IsSubsequence(r, s[1..])
  }

  /** Cleaning leaves a string unchanged exactly when it already consists of digits only. */
  lemma {:induction false} CleanPhoneFixesExactlyDigits(s: string)
    ensures CleanPhone(s) == s <==> AllDigits(s)
  {
    if s != [] {
      CleanPhoneFixesExactlyDigits(s[1..]);
      if !IsDigit(s[0]) {
        assert |CleanPhone(s)| < |s|;
      }
    }
  }

  /** Cleaning a cleaned phone changes nothing. */
  lemma CleanPhoneIdempotent(s: string)
    ensures CleanPhone(CleanPhone(s)) == CleanPhone(s)
  {
    CleanPhoneFixesExactlyDigits(CleanPhone(s));
  }

  /** Cleaning works character by character: it distributes over concatenation. */
  lemma {:induction false} CleanPhoneConcat(a: string, b: string)
    ensures CleanPhone(a + b) == CleanPhone(a) + CleanPhone(b)
  {
    if a == [] {
      assert a + b == b;
    } else {
      assert (a + b)[1..] == a[1..] + b;
      CleanPhoneConcat(a[1..], b);
    }
  }

  /** Every digit occurrence of the input survives, and nothing else does. */
  lemma {:induction false} CleanPhoneKeepsEveryDigit(s: string)
    ensures forall c :: multiset(CleanPhone(s))[c] == if IsDigit(c) then multiset(s)[c] else 0
  {
    if s != [] {
      CleanPhoneKeepsEveryDigit(s[1..]);
      assert s == [s[0]] + s[1..];
      assert multiset(s) == multiset{s[0]} + multiset(s[1..]);
    }
  }

  /** The cleaned phone is an in-order selection of the input's characters. */
  lemma {:induction false} CleanPhoneIsSubsequence(s: string)
    ensures IsSubsequence(CleanPhone(s), s)
  {
    if s != [] {
      CleanPhoneIsSubsequence(s[1..]);
      if IsDigit(s[0]) {
        assert CleanPhone(s)[1..] == CleanPhone(s[1..]);
      } else {
        SubsequenceOfTail(CleanPhone(s), s);
      }
    }
  }

  lemma SubsequenceOfTail(r: string, s: string)
    requires s != [] && IsSubsequence(r, s[1..])
    ensures IsSubsequence(r, s)
  {
  }

  /** No all-digit selection of the input's characters is longer than the cleaned phone. */
  lemma {:induction false} DigitSubsequenceBound(r: string, s: string)
    requires IsSubsequence(r, s) && AllDigits(r)
    ensures |r| <= |CleanPhone(s)|
    decreases |s|
  {
    if r != [] {
      assert s != [];
      if r[0] == s[0] && IsSubsequence(r[1..], s[1..]) {
        DigitSubsequenceBound(r[1..], s[1..]);
        assert IsDigit(s[0]);
      } else {
        DigitSubsequenceBound(r, s[1..]);
      }
    }
  }

  /**
   * The cleaned phone is THE subsequence of the input's digit characters: any
   * all-digit selection of the input's characters at least as long equals it.
   */
  lemma {:induction false} DigitSubsequenceUnique(r: string, s: string)
    requires IsSubsequence(r, s) && AllDigits(r) && |r| >= |CleanPhone(s)|
    ensures r == CleanPhone(s)
    decreases |s|
  {
    if r == [] {
    } else {
      assert s != [];
      if r[0] == s[0] && IsSubsequence(r[1..], s[1..]) {
        assert IsDigit(s[0]);
        assert CleanPhone(s) == [s[0]] + CleanPhone(s[1..]);
        DigitSubsequenceUnique(r[1..], s[1..]);
        assert r == [r[0]] + r[1..];
      } else {
        DigitSubsequenceBound(r, s[1..]);
        if IsDigit(s[0]) {
          assert false;
        } else {
          DigitSubsequenceUnique(r, s[1..]);
        }
      }
    }
  }

  /** The identifier a phone is stored under: the phone followed by the routing domain. */
  function StorageId(phone: string): (id: string)
    ensures |id| == |phone| + |Suffix|
  {
    phone + Suffix
  }

  /** Inverse of StorageId: the phone part of an identifier, if it carries the routing domain. */
  function PhoneOf(id: string): (p: Option<string>)
    ensures p.Some? ==> |p.value| + |Suffix| == |id|
  {
    if |id| >= |Suffix| && id[|id| - |Suffix|..] == Suffix then Some(id[..|id| - |Suffix|]) else None
  }

  lemma StorageIdRoundTrip(phone: string)
    ensures PhoneOf(StorageId(phone)) == Some(phone)
  {
  }

  lemma PhoneOfInverse(id: string, phone: string)
    requires PhoneOf(id) == Some(phone)
    ensures StorageId(phone) == id
  {
  }

  /** A stored outbound identifier is always `<digits>@s.whatsapp.net`, and the digits can be recovered. */
  lemma OutboundIdIsDigitsAtSuffix(raw: string)
    ensures PhoneOf(StorageId(CleanPhone(raw))) == Some(CleanPhone(raw))
    ensures AllDigits(PhoneOf(StorageId(CleanPhone(raw))).value)
  {
    StorageIdRoundTrip(CleanPhone(raw));
  }

  /** Cleaning a phone written in four parts cleans each part. */
  lemma CleanPhoneOfParts(a: string, b: string, c: string, d: string)
    ensures CleanPhone(a + b + c + d) == CleanPhone(a) + CleanPhone(b) + CleanPhone(c) + CleanPhone(d)
  {
    CleanPhoneConcat(a, b);
    CleanPhoneConcat(a + b, c);
    CleanPhoneConcat(a + b + c, d);
  }

  /**
   * A formatted Brazilian number, `+55 (11) 91234-5678` (written here in four
   * parts), is stored under its bare digits.
   */
  lemma {:induction false} FormattedNumberExample()
    ensures CleanPhone("+55 " + "(11) " + "91234-" + "5678") == "5511912345678"
    ensures StorageId(CleanPhone("+55 " + "(11) " + "91234-" + "5678")) == "5511912345678@s.whatsapp.net"
  {
    CleanPhoneOfParts("+55 ", "(11) ", "91234-", "5678");
    ExampleParts();
    StoredDigitsExample();
  }

  lemma ExampleParts()
    ensures CleanPhone("+55 ") == "55" && CleanPhone("(11) ") == "11"
    ensures CleanPhone("91234-") == "91234" && CleanPhone("5678") == "5678"
  {
  }

  lemma StoredDigitsExample()
    ensures StorageId("5511912345678") == "5511912345678@s.whatsapp.net"
  {
  }
}
