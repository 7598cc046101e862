/** The enumerations the backend services share.  In the TypeScript services each
    service repeats them as TypeScript string unions; here each is declared once,
    together with the string the services compare against or send on. */
module Vocabulary {

  /** Direction of an order intent ('buy' | 'sell'). */
  datatype OrderType = Buy | Sell {
    function Name(): string {
      match this
      case Buy => "buy"
      case Sell => "sell"
    }
  }

  /** Investment horizon given to the rule classifier. */
  datatype Horizon = ShortTerm | MediumTerm | LongTerm {
    function Name(): string {
      match this
      case ShortTerm => "short"
      case MediumTerm => "medium"
      case LongTerm => "long"
    }
  }

  /** The five violation labels; NoViolation is the services' "NONE". */
  datatype ViolationType = NoViolation | PanicSell | Overtrading | ShortTermism | PlanDeviation {
    function Name(): string {
      match this
      case NoViolation => "NONE"
      case PanicSell => "PANIC_SELL"
      case Overtrading => "OVERTRADING"
      case ShortTermism => "SHORT_TERMISM"
      case PlanDeviation => "PLAN_DEVIATION"
    }
  }

  /** Lower-case severity produced by the rule service and consumed by the
      cooldown and blockchain services ("low" | "medium" | "high"). */
  datatype Severity = Low | Medium | High {
    function Name(): string {
      match this
      case Low => "low"
      case Medium => "medium"
      case High => "high"
    }
  }

  /** Upper-case severity of the decision engine's output and of the
      adapter's violation event ('LOW' | 'MEDIUM' | 'HIGH'). */
  datatype Tier = LOW | MEDIUM | HIGH {
    function Name(): string {
      match this
      case LOW => "LOW"
      case MEDIUM => "MEDIUM"
      case HIGH => "HIGH"
    }
  }

  /** The tier whose name is the upper-cased name of a severity. */
  function TierOf(s: Severity): Tier {
    match s
    case Low => LOW
    case Medium => MEDIUM
    case High => HIGH
  }

  /** String.prototype.toUpperCase restricted to ASCII letters, which is all
      the severity names contain. */
  function UpperChar(c: char): (u: char)
    ensures 'a' <= c <= 'z' ==> 'A' <= u <= 'Z' && u as int == c as int - 32
    ensures !('a' <= c <= 'z') ==> u == c
  {
    if 'a' <= c <= 'z' then (c as int - 32) as char else c
  }

  function ToUpperCase(s: string): (r: string)
    ensures |r| == |s|
    ensures forall k :: 0 <= k < |s| ==> r[k] == UpperChar(s[k])
  {
    if |s| == 0 then [] else [UpperChar(s[0])] + ToUpperCase(s[1..])
  }

  /** Upper-casing a severity's name yields exactly the name of its tier. */
  lemma UpperCasedSeverityIsTier(s: Severity)
    ensures ToUpperCase(s.Name()) == TierOf(s).Name()
  {
    match s
    case Low =>
      assert ToUpperCase("low") == ['L', 'O', 'W'];
    case Medium =>
      assert ToUpperCase("medium") == ['M', 'E', 'D', 'I', 'U', 'M'];
    case High =>
      assert ToUpperCase("high") == ['H', 'I', 'G', 'H'];
  }

  /** Violation names are distinct, so forwarding the name loses nothing. */
  lemma ViolationNameInjective(a: ViolationType, b: ViolationType)
    ensures a.Name() == b.Name() ==> a == b
  {
  }
}
