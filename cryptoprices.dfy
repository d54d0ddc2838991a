/**
 * `friendlyError` of the live-price hook: the message shown when fetching
 * prices fails, chosen by an ordered chain of substring tests.
 */
module CryptoPrices {
  import opened Wrappers

  /** The four explanations, one per kind of failure. */
  datatype Failure = RateLimited | AccessDenied | NetworkError | Generic

  /** The text shown for each kind of failure. */
  function Text(f: Failure): (t: string)
    ensures |t| > 0
  {
    match f
    case RateLimited => "Rate limited by CoinGecko. Prices will refresh shortly."
    case AccessDenied => "CoinGecko access denied. Prices will refresh shortly."
    case NetworkError => "Network error. Check your connection."
    case Generic => "Unable to load prices. Please try again."
  }

  /** Different failures are explained differently, so the text tells the user which rule matched. */
  lemma TextsDistinct(f: Failure, g: Failure)
    ensures Text(f) == Text(g) <==> f == g
  {
    assert |Text(RateLimited)| == 55 && |Text(AccessDenied)| == 53;
    assert |Text(NetworkError)| == 37 && |Text(Generic)| == 40;
  }

  /** `sub` occurs in `s` starting at position `i`. */
  predicate OccursAt(s: string, sub: string, i: int)
  {
    0 <= i <= |s| - |sub| && s[i..i + |sub|] == sub
  }

  /** `s.includes(sub)`: a search from the left, one start position at a time. */
  function Includes(s: string, sub: string): bool
  {
    if |sub| > |s| then false
    else if s[..|sub|] == sub then true
    else Includes(s[1..], sub)
  }

  /** The search finds `sub` exactly when `sub` occurs somewhere in `s`. */
  lemma {:induction false} IncludesOccurs(s: string, sub: string)
    ensures Includes(s, sub) <==> exists i :: OccursAt(s, sub, i)
  {
    if |sub| > |s| {
    } else if s[..|sub|] == sub {
      assert OccursAt(s, sub, 0);
    } else {
      IncludesOccurs(s[1..], sub);
      OccursShift(s, sub);
    }
  }

  /** When `sub` does not start `s`, it occurs in `s` exactly when it occurs in the tail of `s`. */
  lemma OccursShift(s: string, sub: string)
    requires |sub| <= |s| && s[..|sub|] != sub
    ensures (exists i :: OccursAt(s, sub, i)) <==> (exists i :: OccursAt(s[1..], sub, i))
  {
    if i :| OccursAt(s, sub, i) {
      assert i != 0;
      assert s[1..][i - 1..i - 1 + |sub|] == s[i..i + |sub|];
      assert OccursAt(s[1..], sub, i - 1);
    }
    if i :| OccursAt(s[1..], sub, i) {
      assert s[i + 1..i + 1 + |sub|] == s[1..][i..i + |sub|];
      assert OccursAt(s, sub, i + 1);
    }
  }

  /** `err.message || ''`: a missing or empty message is the empty string. */
  function MessageText(message: Option<string>): (msg: string)
    ensures message.Some? ==> msg == message.value
    ensures message.None? ==> msg == ""
  {
    match message
    case Some(m) => m
    case None => ""
  }

  /** The rule of `friendlyError(err)` that applies: the first matching one wins. */
  function Classify(message: Option<string>): (f: Failure)
    ensures var msg := MessageText(message);
      && (f == RateLimited <==> Includes(msg, "429") || Includes(msg, "rate"))
      && (f == AccessDenied <==> !Includes(msg, "429") && !Includes(msg, "rate") && Includes(msg, "403"))
      && (f == NetworkError <==>
            !Includes(msg, "429") && !Includes(msg, "rate") && !Includes(msg, "403")
            && (Includes(msg, "Load failed") || Includes(msg, "fetch") || Includes(msg, "network")))
      && (f == Generic <==>
            !Includes(msg, "429") && !Includes(msg, "rate") && !Includes(msg, "403")
            && !Includes(msg, "Load failed") && !Includes(msg, "fetch") && !Includes(msg, "network"))
  {
    var msg := MessageText(message);
    if Includes(msg, "429") || Includes(msg, "rate") then RateLimited
    else if Includes(msg, "403") then AccessDenied
    else if Includes(msg, "Load failed") || Includes(msg, "fetch") || Includes(msg, "network") then NetworkError
    else Generic
  }

  /** `friendlyError(err)`: always one of the four fixed explanations, the one the first matching rule picks. */
  function FriendlyError(message: Option<string>): (r: string)
    ensures exists f :: r == Text(f)
    ensures forall f :: r == Text(f) <==> f == Classify(message)
  {
    var f := Classify(message);
    forall g ensures Text(f) == Text(g) <==> g == f {
      TextsDistinct(f, g);
    }
    Text(f)
  }

  /** A message mentioning a rate limit is reported as one, whatever else it mentions. */
  lemma RateLimitFirst(prefix: string, suffix: string)
    ensures Classify(Some(prefix + "429" + suffix)) == RateLimited
  {
    var msg := prefix + "429" + suffix;
    assert msg[|prefix|..|prefix| + 3] == "429";
    assert OccursAt(msg, "429", |prefix|);
    IncludesOccurs(msg, "429");
  }

  /** A message with no text at all gets the generic explanation. */
  lemma MissingMessage()
    ensures Classify(None) == Generic
    ensures Classify(Some("")) == Generic
  {
  }

  /** A string lacking one of the characters of `sub` cannot include `sub`. */
  lemma MissingChar(s: string, sub: string, k: nat)
    requires k < |sub| && sub[k] !in s
    ensures !Includes(s, sub)
  {
    IncludesOccurs(s, sub);
    if i :| OccursAt(s, sub, i) {
      assert false;
    }
  }

  /** An HTTP 429 is a rate limit. */
  lemma TooManyRequests()
    ensures Classify(Some("HTTP 429")) == RateLimited
  {
    RateLimitFirst("HTTP ", "");
  }

  /** An HTTP 403 is a refusal. */
  lemma Forbidden(msg: string)
    requires msg == "HTTP 403"
    ensures Classify(Some(msg)) == AccessDenied
  {
    assert !Includes(msg, "429") by { MissingChar(msg, "429", 1); }
    assert !Includes(msg, "rate") by { MissingChar(msg, "rate", 0); }
    assert Includes(msg, "403") by {
      assert msg[5..8] == "403";
      assert OccursAt(msg, "403", 5);
      IncludesOccurs(msg, "403");
    }
  }

  /** A fetch that never reached the server is a network error. */
  lemma FailedFetch(msg: string)
    requires msg == "Failed to fetch"
    ensures Classify(Some(msg)) == NetworkError
  {
    assert !Includes(msg, "429") by { MissingChar(msg, "429", 0); }
    assert !Includes(msg, "rate") by { MissingChar(msg, "rate", 0); }
    assert !Includes(msg, "403") by { MissingChar(msg, "403", 0); }
    assert Includes(msg, "fetch") by {
      assert msg[10..15] == "fetch";
      assert OccursAt(msg, "fetch", 10);
      IncludesOccurs(msg, "fetch");
    }
  }

  /** Any other HTTP failure gets the generic explanation. */
  lemma ServerError(msg: string)
    requires msg == "HTTP 500"
    ensures Classify(Some(msg)) == Generic
  {
    assert !Includes(msg, "429") by { MissingChar(msg, "429", 0); }
    assert !Includes(msg, "rate") by { MissingChar(msg, "rate", 0); }
    assert !Includes(msg, "403") by { MissingChar(msg, "403", 0); }
    assert !Includes(msg, "Load failed") by { MissingChar(msg, "Load failed", 0); }
    assert !Includes(msg, "fetch") by { MissingChar(msg, "fetch", 0); }
    assert !Includes(msg, "network") by { MissingChar(msg, "network", 0); }
  }
}
