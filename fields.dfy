/** What a numeric form field holds, how the form validates a new entry, and how
    the calculation coerces whatever is stored (`Number(x) || 0`).

    The text typed into a field is represented by what the calculator reads from
    it: whether it is blank after trimming and what `Number(text)` yields. */
module Fields {

  /** The result of `Number(text)`. */
  datatype Parsed = NaN | Num(x: real)

  /** An entry as typed. In JavaScript a blank text parses to 0, so a faithful
      blank entry is `Entry(true, Num(0.0))`; the handler does not rely on that. */
  datatype Entry = Entry(blank: bool, number: Parsed)

  /** A field's state: a number (a preset, a default or an accepted entry), or the
      raw text of an entry that failed validation. */
  datatype Value = Stored(n: real) | Raw(text: Entry)

  /** An upper bound: `Infinity` (the handler's default) or a finite maximum. */
  datatype Bound = NoMax | AtMost(max: real)

  /** `Number(x) || 0`: NaN becomes 0, every other number (in range or not) passes. */
  function NumberOr0(v: Value): real {
    match v
    case Stored(n) => n
    case Raw(Entry(_, NaN)) => 0.0
    case Raw(Entry(_, Num(x))) => x
  }

  /** The handler's test: an entry is accepted unless it is NaN, blank, below `min`
      or above `max`. */
  predicate Accepts(e: Entry, min: real, max: Bound) {
    && e.number.Num?
    && !e.blank
    && min <= e.number.x
    && (max.AtMost? ==> e.number.x <= max.max)
  }

  /** Accepted entries lie in [min, max]; everything else is rejected, in particular
      every NaN, every blank text and every number outside the range. */
  lemma AcceptsExactly(e: Entry, min: real, max: Bound)
    ensures Accepts(e, min, max) ==> min <= e.number.x && (max.AtMost? ==> e.number.x <= max.max)
    ensures e.number.NaN? || e.blank ==> !Accepts(e, min, max)
    ensures e.number.Num? && !e.blank && min <= e.number.x && max.NoMax? ==> Accepts(e, min, max)
  {
  }

  /** What the engine reads from a field after an edit: the typed number whether or
      not it was accepted, and 0 for NaN. Validation never changes what is calculated. */
  function Stores(e: Entry, min: real, max: Bound): (v: Value)
    ensures Accepts(e, min, max) ==> v == Stored(e.number.x)
    ensures !Accepts(e, min, max) ==> v == Raw(e)
    ensures NumberOr0(v) == if e.number.NaN? then 0.0 else e.number.x
  {
    if Accepts(e, min, max) then Stored(e.number.x) else Raw(e)
  }
}
