/**
 * The records and enumerations the pipeline passes around: the support-case
 * entity `CalledEntity`, the extracted `FormatSummary`, the `SummaryDto`
 * returned to callers, and the closed enumerations `ModulesCalled` and
 * `MoodClient`.
 */
module Entities {
  import opened Text

  /** The closed set of product modules a support case is filed under. */
  datatype ModulesCalled =
    | NFE | NFCE | MDFE | CTE | FRENTE_DE_CAIXA | CERTIFICADO | CONFIGURACAO_DE_CONTA
    | COMERCIAL_VENDAS | ESTOQUE | FINANCEIRO | BOLETOS | MARKETPLACE_LOJA_VIRTUAL
    | RESTAURANTE | RELATORIO | GENERIC
  {
    /** `Enum.name()`: the constant's identifier. */
    function Name(): string {
      match this
      case NFE => "NFE"
      case NFCE => "NFCE"
      case MDFE => "MDFE"
      case CTE => "CTE"
      case FRENTE_DE_CAIXA => "FRENTE_DE_CAIXA"
      case CERTIFICADO => "CERTIFICADO"
      case CONFIGURACAO_DE_CONTA => "CONFIGURACAO_DE_CONTA"
      case COMERCIAL_VENDAS => "COMERCIAL_VENDAS"
      case ESTOQUE => "ESTOQUE"
      case FINANCEIRO => "FINANCEIRO"
      case BOLETOS => "BOLETOS"
      case MARKETPLACE_LOJA_VIRTUAL => "MARKETPLACE_LOJA_VIRTUAL"
      case RESTAURANTE => "RESTAURANTE"
      case RELATORIO => "RELATORIO"
      case GENERIC => "GENERIC"
    }
  }

  /** The customer's mood as the summary reports it. */
  datatype MoodClient = GOOD | NEUTRAL | IRRITATED

  /** A `java.util.UUID`: two 64-bit halves. */
  datatype Uuid = Uuid(mostSigBits: int, leastSigBits: int)

  /**
   * A stored support case. Every field may be `null` in a freshly made
   * entity (`new CalledEntity()`); the identifier is assigned on save.
   */
  datatype CalledEntity = CalledEntity(
    id: Option<Uuid>,
    problem: Option<string>,
    solution: Option<string>,
    upsell: Option<string>,
    prints: bool,
    moodClient: Option<MoodClient>,
    modulesCalled: Option<ModulesCalled>)

  /** `new CalledEntity()`: no identifier, null references, `prints` false. */
  function NewCalledEntity(): CalledEntity {
    CalledEntity(None, None, None, None, false, None, None)
  }

  /** The six fields pulled out of a marker-delimited summary. */
  datatype FormatSummary = FormatSummary(
    problem: string,
    solution: string,
    upsell: string,
    prints: bool,
    mood: MoodClient,
    modules: ModulesCalled)

  /** The full model text together with the fields extracted from it. */
  datatype SummaryDto = SummaryDto(
    fullSummary: string,
    moduleCalled: ModulesCalled,
    problem: string,
    solution: string,
    formatSummary: FormatSummary)
}
