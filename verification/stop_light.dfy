/** One lamp of the signal: its colour, its status and the transitions the
    controller drives (on, off, blink and the blink timer's tick). */
module StopLight {
  import opened Common

  datatype Color = Red | Yellow | Green

  /** `Color.rawValue`. */
  function ColorName(c: Color): string {
    match c
    case Red => "red"
    case Yellow => "yellow"
    case Green => "green"
  }

  /** `Color(rawValue:)`. */
  function ParseColor(s: string): Option<Color> {
    if s == "red" then Some(Red)
    else if s == "yellow" then Some(Yellow)
    else if s == "green" then Some(Green)
    else None
  }

  lemma ColorNameRoundTrip(c: Color, s: string)
    ensures ParseColor(ColorName(c)) == Some(c)
    ensures ParseColor(s) == Some(c) <==> ColorName(c) == s
  {
  }

  /** The lamp's status; the two blink phases are both "blinking". */
  datatype Status = Off | On | BlinkOn | BlinkOff

  /** `Status.rawValue`. */
  function StatusName(s: Status): string {
    match s
    case Off => "off"
    case On => "on"
    case BlinkOn => "blinking"
    case BlinkOff => "blinking off"
  }

  /** `Status(rawValue:)`. */
  function ParseStatus(s: string): Option<Status> {
    if s == "off" then Some(Off)
    else if s == "on" then Some(On)
    else if s == "blinking" then Some(BlinkOn)
    else if s == "blinking off" then Some(BlinkOff)
    else None
  }

  lemma StatusNameRoundTrip(st: Status, s: string)
    ensures ParseStatus(StatusName(st)) == Some(st)
    ensures ParseStatus(s) == Some(st) <==> StatusName(st) == s
  {
  }

  /** The three requests the controller makes of a lamp. */
  datatype Command = TurnOn | TurnOff | StartBlink

  predicate Blinking(s: Status) {
    s == BlinkOn || s == BlinkOff
  }

  /** The status a lamp in status `s` has after `cmd`. */
  function After(cmd: Command, s: Status): (r: Status)
    ensures cmd == TurnOn ==> r == On
    ensures cmd == TurnOff ==> r == Off
    ensures cmd == StartBlink ==> Blinking(r) && (Blinking(s) ==> r == s)
    ensures cmd == StartBlink && !Blinking(s) ==> r == BlinkOff
  {
    match cmd
    case TurnOn => On
    case TurnOff => Off
    case StartBlink => if Blinking(s) then s else BlinkOff
  }

  /** The status after one tick of the blink timer: the phases alternate, any
      other status is left as it is. */
  function Ticked(s: Status): (r: Status)
    ensures Blinking(r) == Blinking(s)
    ensures Blinking(s) ==> r != s
    ensures !Blinking(s) ==> r == s
  {
    match s
    case BlinkOn => BlinkOff
    case BlinkOff => BlinkOn
    case _ => s
  }

  /** Repeating a command changes nothing more. */
  lemma AfterIdempotent(cmd: Command, s: Status)
    ensures After(cmd, After(cmd, s)) == After(cmd, s)
  {
  }

  /** Two ticks bring a blinking lamp back to the phase it started in. */
  lemma TickTwice(s: Status)
    ensures Ticked(Ticked(s)) == s
  {
  }

  class StopLight {
    const color: Color
    var status: Status

    constructor (color: Color)
      ensures this.color == color && status == Status.Off
    {
      this.color := color;
      status := Status.Off;
    }

    predicate IsOn()
      reads this
    {
      status == Status.On
    }

    predicate IsOff()
      reads this
    {
      status == Status.Off
    }

    predicate IsBlinking()
      reads this
    {
      Blinking(status)
    }

    method On()
      modifies this
      ensures status == After(TurnOn, old(status)) && IsOn()
    {
      if status != Status.On {
        status := Status.On;
      }
    }

    method Off()
      modifies this
      ensures status == After(TurnOff, old(status)) && IsOff()
    {
      if status != Status.Off {
        status := Status.Off;
      }
    }

    method Blink()
      modifies this
      ensures status == After(StartBlink, old(status)) && IsBlinking()
      ensures old(IsBlinking()) ==> status == old(status)
    {
      if IsBlinking() {
        return;
      }
      status := BlinkOff;
    }

    /** The body of the repeating blink timer. */
    method Tick()
      modifies this
      ensures status == Ticked(old(status))
      ensures IsBlinking() == old(IsBlinking())
    {
      if IsBlinking() {
        if status == BlinkOn {
          status := BlinkOff;
        } else {
          status := BlinkOn;
        }
      }
    }
  }

  /** Exactly one of the three status predicates holds of a lamp. */
  lemma ExactlyOnePredicate(light: StopLight)
    ensures light.IsOn() || light.IsOff() || light.IsBlinking()
    ensures !(light.IsOn() && light.IsOff())
    ensures !(light.IsOn() && light.IsBlinking())
    ensures !(light.IsOff() && light.IsBlinking())
  {
  }
}
