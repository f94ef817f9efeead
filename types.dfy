/** The record shapes shared by the generator and the application state. */
module Types {

  datatype Option<+T> = None | Some(value: T) {
    /** The value held, or `default` when there is none. */
    function GetOr(default: T): T {
      match this
      case Some(v) => v
      case None => default
    }
  }

  /** The four strength labels, ordered from weakest to strongest. */
  datatype Strength = Debil | Media | Fuerte | MuyFuerte {
    /** Position in the order Débil < Media < Fuerte < Muy Fuerte. */
    function Rank(): nat {
      match this
      case Debil => 0
      case Media => 1
      case Fuerte => 2
      case MuyFuerte => 3
    }

    /** The label as the application displays and stores it. */
    function Label(): string {
      match this
      case Debil => "Débil"
      case Media => "Media"
      case Fuerte => "Fuerte"
      case MuyFuerte => "Muy Fuerte"
    }
  }

  /** Distinct strengths carry distinct labels, so a stored label names exactly one strength. */
  lemma LabelInjective(a: Strength, b: Strength)
    ensures a.Label() == b.Label() <==> a == b
  {
    if a != b {
      assert a.Label()[0] != b.Label()[0] || |a.Label()| != |b.Label()|;
    }
  }

  /** One remembered password. `createdAt` is a millisecond timestamp. */
  datatype PasswordEntry = PasswordEntry(
    id: string,
    value: string,
    createdAt: int,
    strength: Strength,
    isFavorite: bool)

  /** The generator configuration. `useAmbiguous` set means "exclude l, 1, I, O, 0". */
  datatype GeneratorSettings = GeneratorSettings(
    length: nat,
    useUppercase: bool,
    useLowercase: bool,
    useNumbers: bool,
    useSymbols: bool,
    useAmbiguous: bool,
    easyTyping: bool)
}
