/** Reading DiddiPay's status words: what normalising guarantees, and exactly where the wallet service's
    own reading differs from the one webhooks and sweeps use. */
module ProviderWords {
  import opened Prelude
  import opened PaymentDomain

  predicate AllBlank(s: string) {
    forall i | 0 <= i < |s| :: Blank(s[i])
  }

  lemma {:induction false} StripDropsLeading(pad: string, s: string)
    requires AllBlank(pad)
    ensures Strip(pad + s) == Strip(s)
  {
    if |pad| > 0 {
      assert (pad + s)[1..] == pad[1..] + s;
      StripDropsLeading(pad[1..], s);
    } else {
      assert pad + s == s;
    }
  }

  lemma {:induction false} StripDropsTrailing(s: string, pad: string)
    requires AllBlank(pad)
    ensures Strip(s + pad) == Strip(s)
    decreases |s| + |pad|
  {
    var n := |pad| - 1;
    if |pad| == 0 {
      assert s + pad == s;
    } else if |s| > 0 && Blank(s[0]) {
      assert (s + pad)[1..] == s[1..] + pad;
      StripDropsTrailing(s[1..], pad);
    } else if |s| > 0 {
      assert (s + pad)[..|s| + n] == s + pad[..n];
      StripDropsTrailing(s, pad[..n]);
    } else {
      assert s + pad == pad + s;
      StripDropsLeading(pad, s);
    }
  }

  lemma {:induction false} LowerStrips(s: string)
    ensures Strip(Lower(s)) == Lower(Strip(s))
  {
    if |s| > 0 && Blank(s[0]) {
      assert Lower(s)[1..] == Lower(s[1..]);
      LowerStrips(s[1..]);
    } else if |s| > 0 && Blank(s[|s| - 1]) {
      assert Lower(s)[..|s| - 1] == Lower(s[..|s| - 1]);
      LowerStrips(s[..|s| - 1]);
    }
  }

  /** Surrounding blanks and letter case never change how a webhook or sweep reads a status. */
  lemma ReadingIgnoresBlanksAndCase(before: string, word: string, after: string)
    requires AllBlank(before) && AllBlank(after)
    ensures ServiceStatus(before + word + after) == ServiceStatus(word) == ServiceStatus(Lower(word))
  {
    StripDropsTrailing(before + word, after);
    StripDropsLeading(before, word);
    LowerStrips(word);
    assert Lower(Lower(Strip(word))) == Lower(Strip(word));
  }

  predicate Plain(s: string) {
    s != "" && forall i | 0 <= i < |s| :: 'a' <= s[i] <= 'z' || s[i] == '_'
  }

  lemma PlainIsNormal(s: string)
    requires Plain(s)
    ensures Lower(Strip(s)) == s
  {
    assert !Blank(s[0]) && !Blank(s[|s| - 1]);
    assert Lower(s) == s;
  }

  lemma KnownWordsArePlain(s: string)
    requires ParsePaymentStatus(s).Some?
    ensures Plain(s)
  {
    match ParsePaymentStatus(s).value
    case Pending => assert s == "pending";
    case RequiresAction => assert s == "requires_action";
    case Processing => assert s == "processing";
    case Succeeded => assert s == "succeeded";
    case Failed => assert s == "failed";
    case Cancelled => assert s == "cancelled";
    case PartiallyRefunded => assert s == "partially_refunded";
    case Refunded => assert s == "refunded";
    case Collected => assert s == "collected";
    case Disputed => assert s == "disputed";
  }

  const CANONICAL_WORDS: set<string> :=
    {"pending", "requires_action", "processing", "succeeded", "failed", "cancelled", "partially_refunded", "refunded",
     "collected", "disputed"}
  const ABANDONED_WORDS: set<string> := {"expired", "abandoned"}

  /** The two readings of a status agree exactly on canonical words, and on non-empty words that are no
      canonical or abandoned word even when trimmed and lower-cased. */
  lemma {:induction false} ReadersAgreeExactlyOn(s: string)
    ensures WalletStatus(s) == ServiceStatus(s) <==>
              s in CANONICAL_WORDS || (s != "" && Lower(Strip(s)) !in CANONICAL_WORDS + ABANDONED_WORDS)
  {
    assert ParsePaymentStatus(s).Some? <==> s in CANONICAL_WORDS;
    assert ParsePaymentStatus(Lower(Strip(s))).Some? <==> Lower(Strip(s)) in CANONICAL_WORDS;
    if s in CANONICAL_WORDS {
      KnownWordsArePlain(s);
      PlainIsNormal(s);
    }
  }

  // ---------------------------------------------------------------- the words of each status

  /** The words that mean a payment status to webhooks and sweeps, once trimmed and lower-cased. */
  function WordsFor(status: PaymentStatus): set<string> {
    match status
    case Pending => {"pending"}
    case RequiresAction => {"requires_action"}
    case Processing => {"processing"}
    case Succeeded => {"succeeded"}
    case Failed => {"failed"}
    case Cancelled => {"cancelled", "expired", "abandoned"}
    case PartiallyRefunded => {"partially_refunded"}
    case Refunded => {"refunded"}
    case Collected => {"collected"}
    case Disputed => {"disputed"}
  }

  predicate Spells(word: string, status: PaymentStatus) {
    Lower(Strip(word)) in WordsFor(status)
  }

  /** A top-up has no refunds, cash or disputes: those words leave it failed. */
  predicate SpellsTopup(word: string, status: TopupStatus) {
    match status
    case Pending => Spells(word, PaymentStatus.Pending)
    case RequiresAction => Spells(word, PaymentStatus.RequiresAction)
    case Processing => Spells(word, PaymentStatus.Processing)
    case Succeeded => Spells(word, PaymentStatus.Succeeded)
    case Cancelled => Spells(word, PaymentStatus.Cancelled)
    case Failed =>
      || Spells(word, PaymentStatus.Failed) || Spells(word, PaymentStatus.PartiallyRefunded)
      || Spells(word, PaymentStatus.Refunded) || Spells(word, PaymentStatus.Collected)
      || Spells(word, PaymentStatus.Disputed)
  }

  lemma ReadingIsSpelling(word: string, status: PaymentStatus)
    ensures ServiceStatus(word) == Some(status) <==> Spells(word, status)
  {
  }

  lemma ReadsExactlySpelledWords(word: string)
    ensures ServiceStatus(word).Some? <==> exists status :: Spells(word, status)
  {
    if ServiceStatus(word).Some? {
      ReadingIsSpelling(word, ServiceStatus(word).value);
    }
    if status :| Spells(word, status) {
      ReadingIsSpelling(word, status);
    }
  }

  lemma TopupReadingIsSpelling(word: string, status: TopupStatus)
    ensures ServiceStatus(word).Some? && TopupStatusOf(ServiceStatus(word).value) == status
        <==> SpellsTopup(word, status)
  {
    if ServiceStatus(word).Some? {
      ReadingIsSpelling(word, ServiceStatus(word).value);
    }
    if SpellsTopup(word, status) {
      forall s { ReadingIsSpelling(word, s); }
    }
  }

  /** The wallet service's words are exact, and no word at all asks for action. */
  predicate SpellsExactly(word: string, status: PaymentStatus) {
    (word in WordsFor(status) && word in CANONICAL_WORDS) || (word == "" && status.RequiresAction?)
  }

  lemma WalletReadingIsSpelling(word: string, status: PaymentStatus)
    ensures WalletStatus(word) == Some(status) <==> SpellsExactly(word, status)
  {
  }

  // ---------------------------------------------------------------- fields of a new intent

  /** The provider's number is what is stored; without one, or with zero, the amount asked for. */
  predicate StoredAmount(field: NumberField, asked: int, stored: int) {
    match field
    case Number(n) => stored == if n != 0 then n else asked
    case Absent => stored == asked
    case NotANumber => false
  }

  predicate StoredWord(given: string, default: string, stored: string) {
    stored == if given != "" then given else default
  }
}
