/**
 * `ModuleMapper.map`: the free-text module label that the summary carries is
 * upper-cased and tested against a fixed, ordered list of phrases; the first
 * phrase it contains decides the module, and `GENERIC` is the default.
 */
module ModuleMapper {
  import opened Text
  import opened Entities

  /** How many phrases `map` tests. */
  const PhraseCount: nat := 14

  /** The phrases `map` tests, in its order. */
  const NfePhrase: string := "NF-E (NOTA FISCAL ELETRÔNICA)"
  const NfcePhrase: string := "NFC-E (NOTA FISCAL DO CONSUMIDOR ELETRÔNICA)"
  const MdfePhrase: string := "MDF-E"
  const CtePhrase: string := "CT-E"
  const CashierPhrase: string := "FRENTE DE CAIXA"
  const CertificatePhrase: string := "CERTIFICADO"
  const AccountSetupPhrase: string := "CONFIGURAÇÃO DE CONTA"
  const SalesPhrase: string := "COMERCIAL/VENDAS"
  const StockPhrase: string := "ESTOQUE"
  const FinancePhrase: string := "FINANCEIRO"
  const BankSlipPhrase: string := "BOLETOS"
  const MarketplacePhrase: string := "MARKETPLACE / LOJA VIRTUAL"
  const RestaurantPhrase: string := "RESTAURANTE"
  const ReportPhrase: string := "RELATÓRIO"

  /** The phrase `map` tests at position `i`, with the module it selects. */
  function Phrase(i: nat): (string, ModulesCalled)
    requires i < PhraseCount
  {
    match i
    case 0 => (NfePhrase, NFE)
    case 1 => (NfcePhrase, NFCE)
    case 2 => (MdfePhrase, MDFE)
    case 3 => (CtePhrase, CTE)
    case 4 => (CashierPhrase, FRENTE_DE_CAIXA)
    case 5 => (CertificatePhrase, CERTIFICADO)
    case 6 => (AccountSetupPhrase, CONFIGURACAO_DE_CONTA)
    case 7 => (SalesPhrase, COMERCIAL_VENDAS)
    case 8 => (StockPhrase, ESTOQUE)
    case 9 => (FinancePhrase, FINANCEIRO)
    case 10 => (BankSlipPhrase, BOLETOS)
    case 11 => (MarketplacePhrase, MARKETPLACE_LOJA_VIRTUAL)
    case 12 => (RestaurantPhrase, RESTAURANTE)
    case _ => (ReportPhrase, RELATORIO)
  }

  /** The upper-cased label contains the phrase at position `i` of the list. */
  predicate PhraseIn(h: string, i: nat)
    requires i < PhraseCount
  {
    Contains(h, Phrase(i).0)
  }

  /** `ModuleMapper.map`: null gives `GENERIC`; otherwise the phrase chain on the upper-cased label. */
  function Map(name: Option<string>): (r: ModulesCalled)
    ensures name.None? ==> r == GENERIC
  {
    if name.None? then GENERIC else MapUpper(ToUpperCase(name.value))
  }

  /** The chain of `contains` tests of `map`, on the upper-cased label `h`. */
  function MapUpper(h: string): ModulesCalled
  {
    if Contains(h, NfePhrase) then NFE
    else if Contains(h, NfcePhrase) then NFCE
    else if Contains(h, MdfePhrase) then MDFE
    else if Contains(h, CtePhrase) then CTE
    else if Contains(h, CashierPhrase) then FRENTE_DE_CAIXA
    else if Contains(h, CertificatePhrase) then CERTIFICADO
    else if Contains(h, AccountSetupPhrase) then CONFIGURACAO_DE_CONTA
    else if Contains(h, SalesPhrase) then COMERCIAL_VENDAS
    else if Contains(h, StockPhrase) then ESTOQUE
    else if Contains(h, FinancePhrase) then FINANCEIRO
    else if Contains(h, BankSlipPhrase) then BOLETOS
    else if Contains(h, MarketplacePhrase) then MARKETPLACE_LOJA_VIRTUAL
    else if Contains(h, RestaurantPhrase) then RESTAURANTE
    else if Contains(h, ReportPhrase) then RELATORIO
    else GENERIC
  }

  /** Reference definition: scan the phrase list from position `k` and take the first hit. */
  function FirstMatchFrom(h: string, k: nat): ModulesCalled
    requires k <= PhraseCount
    decreases PhraseCount - k
  {
    if k == PhraseCount then GENERIC
    else if PhraseIn(h, k) then Phrase(k).1
    else FirstMatchFrom(h, k + 1)
  }

  /** The if-chain of `map` is the ordered scan of the phrase list. */
  lemma MapIsTableScan(h: string)
    ensures MapUpper(h) == FirstMatchFrom(h, 0)
  {
    if PhraseIn(h, 0) {
    } else if PhraseIn(h, 1) {
    } else if PhraseIn(h, 2) {
    } else if PhraseIn(h, 3) {
    } else if PhraseIn(h, 4) {
    } else if PhraseIn(h, 5) {
    } else if PhraseIn(h, 6) {
    } else if PhraseIn(h, 7) {
    } else if PhraseIn(h, 8) {
    } else if PhraseIn(h, 9) {
    } else if PhraseIn(h, 10) {
    } else if PhraseIn(h, 11) {
    } else if PhraseIn(h, 12) {
    } else if PhraseIn(h, 13) {
    } else {
    }
  }

  /** The scan from `k` returns the module of the first phrase at or after `k` that occurs, else `GENERIC`. */
  lemma {:induction false} FirstMatchFromSpec(h: string, k: nat)
    requires k <= PhraseCount
    ensures forall i :: k <= i < PhraseCount && PhraseIn(h, i) && (forall j :: k <= j < i ==> !PhraseIn(h, j))
              ==> FirstMatchFrom(h, k) == Phrase(i).1
    ensures (forall i :: k <= i < PhraseCount ==> !PhraseIn(h, i)) ==> FirstMatchFrom(h, k) == GENERIC
    decreases PhraseCount - k
  {
    if k < PhraseCount {
      FirstMatchFromSpec(h, k + 1);
    }
  }

  /**
   * The result of `map` is the module of the first listed phrase that the
   * upper-cased label contains.
   */
  lemma MapFirstMatch(s: string, i: nat)
    requires i < PhraseCount && PhraseIn(ToUpperCase(s), i)
    requires forall j :: 0 <= j < i ==> !PhraseIn(ToUpperCase(s), j)
    ensures Map(Some(s)) == Phrase(i).1
  {
    MapIsTableScan(ToUpperCase(s));
    FirstMatchFromSpec(ToUpperCase(s), 0);
  }

  /** A label containing none of the fourteen phrases maps to `GENERIC`, and only such a label does. */
  lemma MapGenericExactly(s: string)
    ensures Map(Some(s)) == GENERIC <==> forall i :: 0 <= i < PhraseCount ==> !PhraseIn(ToUpperCase(s), i)
  {
    var h := ToUpperCase(s);
    MapIsTableScan(h);
    FirstMatchFromSpec(h, 0);
    if exists i :: 0 <= i < PhraseCount && PhraseIn(h, i) {
      ScanHitNotGeneric(h, 0);
    }
  }

  /** No phrase of the list selects `GENERIC`, so a scan that meets a phrase does not return it. */
  lemma {:induction false} ScanHitNotGeneric(h: string, k: nat)
    requires k <= PhraseCount
    requires exists i :: k <= i < PhraseCount && PhraseIn(h, i)
    ensures FirstMatchFrom(h, k) != GENERIC
    decreases PhraseCount - k
  {
    if !PhraseIn(h, k) {
      ScanHitNotGeneric(h, k + 1);
    }
  }

  /** A scan from `k` that passes a phrase `i` stops at that phrase or an earlier one. */
  lemma {:induction false} ScanStopsByHit(h: string, k: nat, i: nat)
    requires k <= i < PhraseCount && PhraseIn(h, i)
    ensures exists m :: k <= m <= i && PhraseIn(h, m) && FirstMatchFrom(h, k) == Phrase(m).1
    decreases i - k
  {
    if !PhraseIn(h, k) {
      ScanStopsByHit(h, k + 1, i);
    }
  }

  /**
   * Order decides: when the label contains the phrase at position `i`, the
   * result is the module of a phrase at or before `i` that it also contains,
   * never that of a later one.
   */
  lemma MapEarlierPhraseWins(s: string, i: nat)
    requires i < PhraseCount && PhraseIn(ToUpperCase(s), i)
    ensures exists m :: 0 <= m <= i && PhraseIn(ToUpperCase(s), m) && Map(Some(s)) == Phrase(m).1
  {
    MapIsTableScan(ToUpperCase(s));
    ScanStopsByHit(ToUpperCase(s), 0, i);
  }

  /** The test is on the upper-cased label, so the case of the label does not matter. */
  lemma MapIgnoresCase(s: string)
    ensures Map(Some(ToLowerCase(s))) == Map(Some(s))
    ensures Map(Some(ToUpperCase(s))) == Map(Some(s))
  {
    UpperOfLower(s);
    UpperOfUpper(s);
  }

  /** "Genérico", the label the summary uses for no specific module, contains no phrase and maps to `GENERIC`. */
  lemma MapGenerico()
    ensures Map(Some("Genérico")) == GENERIC
  {
    assert ToUpperCase("Genérico") == "GENÉRICO";
    var h := "GENÉRICO";
    assert 'F' !in h && 'M' !in h && 'T' !in h;
    assert 'S' !in h && 'B' !in h && 'L' !in h;
    NoPhraseWithoutLetters(h);
  }

  /** Every phrase holds one of the letters F, M, T, S, B, L; a label with none of them maps to `GENERIC`. */
  lemma NoPhraseWithoutLetters(h: string)
    requires 'F' !in h && 'M' !in h && 'T' !in h && 'S' !in h && 'B' !in h && 'L' !in h
    ensures MapUpper(h) == GENERIC
  {
    FiscalPhrasesAbsent(h);
    OtherPhrasesAbsent(h);
  }

  /** The first seven phrases each hold one of the letters F, M, T, S. */
  lemma FiscalPhrasesAbsent(h: string)
    requires 'F' !in h && 'M' !in h && 'T' !in h && 'S' !in h
    ensures !Contains(h, NfePhrase) && !Contains(h, NfcePhrase) && !Contains(h, MdfePhrase)
    ensures !Contains(h, CtePhrase) && !Contains(h, CashierPhrase) && !Contains(h, CertificatePhrase)
    ensures !Contains(h, AccountSetupPhrase)
  {
    MissingCharNotContained(h, NfePhrase, 1);
    MissingCharNotContained(h, NfcePhrase, 1);
    MissingCharNotContained(h, MdfePhrase, 0);
    MissingCharNotContained(h, CtePhrase, 1);
    MissingCharNotContained(h, CashierPhrase, 0);
    MissingCharNotContained(h, CertificatePhrase, 3);
    MissingCharNotContained(h, AccountSetupPhrase, 3);
  }

  /** The last seven phrases each hold one of the letters F, M, T, S, B, L. */
  lemma OtherPhrasesAbsent(h: string)
    requires 'F' !in h && 'M' !in h && 'T' !in h && 'S' !in h && 'B' !in h && 'L' !in h
    ensures !Contains(h, SalesPhrase) && !Contains(h, StockPhrase) && !Contains(h, FinancePhrase)
    ensures !Contains(h, BankSlipPhrase) && !Contains(h, MarketplacePhrase) && !Contains(h, RestaurantPhrase)
    ensures !Contains(h, ReportPhrase)
  {
    MissingCharNotContained(h, SalesPhrase, 2);
    MissingCharNotContained(h, StockPhrase, 1);
    MissingCharNotContained(h, FinancePhrase, 0);
    MissingCharNotContained(h, BankSlipPhrase, 0);
    MissingCharNotContained(h, MarketplacePhrase, 0);
    MissingCharNotContained(h, RestaurantPhrase, 2);
    MissingCharNotContained(h, ReportPhrase, 2);
  }

  /**
   * The electronic-invoice module is selected only by the full phrase
   * "NF-E (NOTA FISCAL ELETRÔNICA)": the bare label "NF-E" maps to `GENERIC`.
   */
  lemma MapBareNfe()
    ensures Map(Some("nf-e")) == GENERIC
  {
    var h := ToUpperCase("nf-e");
    assert h == "NF-E";
    ShortLabelGeneric(h);
  }

  /** Only "CT-E" among the phrases is as short as four characters; a label that short and without 'T' maps to `GENERIC`. */
  lemma ShortLabelGeneric(h: string)
    requires |h| <= 4 && 'T' !in h
    ensures MapUpper(h) == GENERIC
  {
    LongerNotContained(h, NfePhrase);
    LongerNotContained(h, NfcePhrase);
    LongerNotContained(h, MdfePhrase);
    MissingCharNotContained(h, CtePhrase, 1);
    LongerNotContained(h, CashierPhrase);
    LongerNotContained(h, CertificatePhrase);
    LongerNotContained(h, AccountSetupPhrase);
    LongerNotContained(h, SalesPhrase);
    LongerNotContained(h, StockPhrase);
    LongerNotContained(h, FinancePhrase);
    LongerNotContained(h, BankSlipPhrase);
    LongerNotContained(h, MarketplacePhrase);
    LongerNotContained(h, RestaurantPhrase);
    LongerNotContained(h, ReportPhrase);
  }
}
