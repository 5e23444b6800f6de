/** `QuantumCircuit`: the circuit container with its length and basis
    setters, `add`, the string parser `add_from_string` and `__str__`. */
module Circuit {
  import opened Outcomes
  import opened Text
  import opened Gates
  import opened Validation

  /** `add_from_string` splits its input on this separator. */
  const PIECE_SEPARATOR: string := "), "

  /** The class of the rotation object `add_from_string` builds for a piece. */
  datatype RotationClass = ClassX | ClassY | ClassZ

  /** The gate object built for one piece. A rotation's qubit index is the
      single character at position 2 of the piece, kept as text. */
  datatype Built =
    | BuiltCX(gate: Gate)
    | BuiltRotation(cls: RotationClass, indexText: char, theta: real)

  /** The body of the loop of `add_from_string` for one piece `p`, up to the
      call to `add`. `parseFloat` is Python's `float()` on a word, `None` when
      it raises. */
  function ParsePiece(p: string, parseFloat: string -> Option<real>): (r: Result<Built>)
    ensures r.Ok? && r.value.BuiltCX? ==>
      |p| >= 4 && p[..2] == "CX" && r.value.gate.CX?
      && ValidCXPair(r.value.gate.index1, r.value.gate.index2)
      && p[3] == DigitChar(r.value.gate.index1) && p[|p| - 1] == DigitChar(r.value.gate.index2)
    ensures r.Ok? && r.value.BuiltRotation? ==>
      |p| >= 3 && p[2] == r.value.indexText
      && (p[0] == 'X' || p[0] == 'Y' || p[0] == 'Z')
      && r.value.cls == (if p[0] == 'Y' then ClassY else ClassX)
    ensures |p| >= 3 && p[..2] != "CX" && p[0] != 'X' && p[0] != 'Y' && p[0] != 'Z' ==> r.Err?
  {
    if |p| >= 2 && p[..2] == "CX" then
      if |p| < 4 then Err(IndexError)
      else
        match DigitValue(p[3])
        case Err(e) => Err(e)
        case Ok(index1) =>
          match DigitValue(p[|p| - 1])
          case Err(e) => Err(e)
          case Ok(index2) =>
            match MakeCX(index1, index2)
            case Err(e) => Err(e)
            case Ok(g) => Ok(BuiltCX(g))
    else if |p| < 3 then Err(IndexError)
    else
      match LastWord(p)
      case Err(e) => Err(e)
      case Ok(word) =>
        match parseFloat(word)
        case None => Err(ValueError)
        case Some(theta) =>
          if p[0] == 'X' then Ok(BuiltRotation(ClassX, p[2], theta))
          else if p[0] == 'Y' then Ok(BuiltRotation(ClassY, p[2], theta))
          else if p[0] == 'Z' then Ok(BuiltRotation(ClassX, p[2], theta))
          else Err(ValueError)
  }

  /** When a piece parses and which exception it raises otherwise: a CX
      piece needs two digits forming an accepted pair, a rotation piece a
      first letter X, Y or Z and a last word that `float()` reads, which
      becomes the angle; a piece too short to index raises `IndexError`, an
      unreadable angle `ValueError`. */
  lemma ParsePieceOutcomes(p: string, parseFloat: string -> Option<real>)
    ensures var r := ParsePiece(p, parseFloat);
      r.Ok? && r.value.BuiltRotation? ==>
        LastWord(p).Ok? && parseFloat(LastWord(p).value) == Some(r.value.theta)
    ensures |p| >= 4 && p[..2] == "CX" ==>
      (ParsePiece(p, parseFloat).Ok? <==>
        DigitValue(p[3]).Ok? && DigitValue(p[|p| - 1]).Ok?
        && ValidCXPair(DigitValue(p[3]).value, DigitValue(p[|p| - 1]).value))
    ensures |p| >= 3 && p[..2] != "CX" ==>
      (ParsePiece(p, parseFloat).Ok? <==>
        LastWord(p).Ok? && parseFloat(LastWord(p).value).Some?
        && (p[0] == 'X' || p[0] == 'Y' || p[0] == 'Z'))
    ensures |p| < 3 || (|p| == 3 && p[..2] == "CX") ==> ParsePiece(p, parseFloat) == Err(IndexError)
    ensures |p| >= 3 && p[..2] != "CX" && LastWord(p).Ok? && parseFloat(LastWord(p).value).None?
      ==> ParsePiece(p, parseFloat) == Err(ValueError)
    ensures var r := ParsePiece(p, parseFloat);
      r.Err? ==> r.error == IndexError || r.error == ValueError || r.error == TypeError
  {
  }

  /** The pieces processed in order; the first failing piece stops the loop. */
  function ParseGates(pieces: seq<string>, parseFloat: string -> Option<real>): (r: Result<seq<Built>>)
    ensures r.Ok? ==> |r.value| == |pieces|
    decreases |pieces|
  {
    if |pieces| == 0 then Ok([])
    else
      match ParseGates(pieces[..|pieces| - 1], parseFloat)
      case Err(e) => Err(e)
      case Ok(built) =>
        match ParsePiece(pieces[|pieces| - 1], parseFloat)
        case Err(e) => Err(e)
        case Ok(b) => Ok(built + [b])
  }

  /** The loop gets through all the pieces exactly when every piece parses
      on its own. */
  lemma {:induction false} ParseGatesOkIffEveryPiece(pieces: seq<string>, parseFloat: string -> Option<real>)
    ensures ParseGates(pieces, parseFloat).Ok? <==>
      forall k :: 0 <= k < |pieces| ==> ParsePiece(pieces[k], parseFloat).Ok?
    decreases |pieces|
  {
    if |pieces| > 0 {
      var init, last := pieces[..|pieces| - 1], pieces[|pieces| - 1];
      ParseGatesOkIffEveryPiece(init, parseFloat);
      if ParseGates(init, parseFloat).Err? {
        assert ParseGates(pieces, parseFloat).Err?;
        var k :| 0 <= k < |init| && ParsePiece(init[k], parseFloat).Err?;
        assert pieces[k] == init[k];
      } else if ParsePiece(last, parseFloat).Err? {
        assert ParseGates(pieces, parseFloat).Err?;
      } else {
        assert ParseGates(pieces, parseFloat).Ok?;
        forall k | 0 <= k < |pieces|
          ensures ParsePiece(pieces[k], parseFloat).Ok?
        {
          if k < |init| {
            assert pieces[k] == init[k];
          }
        }
      }
    }
  }

  /** `float()` refuses every word that ends with `)`. */
  ghost predicate RefusesClosingParen(parseFloat: string -> Option<real>) {
    forall w :: |w| > 0 && w[|w| - 1] == ')' ==> parseFloat(w).None?
  }

  /** A piece that ends with `)` never parses, provided `float()` refuses
      every word ending with `)`: a CX piece fails on `int(")")`, a
      rotation piece on `float` of its last word. */
  lemma PieceEndingInParenFails(p: string, parseFloat: string -> Option<real>)
    requires |p| > 0 && p[|p| - 1] == ')'
    requires RefusesClosingParen(parseFloat)
    ensures ParsePiece(p, parseFloat).Err?
  {
    if |p| >= 3 && !(|p| >= 2 && p[..2] == "CX") {
      var w := LastWord(p);
      assert !IsSpace(p[|p| - 1]);
    }
  }

  /** Whatever ends with `)` (as every `__str__` of a non-empty gate list
      does) is refused by `add_from_string`: its last piece keeps the
      closing parenthesis. */
  lemma {:induction false} TextEndingInParenFails(s: string, parseFloat: string -> Option<real>)
    requires |s| > 0 && s[|s| - 1] == ')'
    requires RefusesClosingParen(parseFloat)
    ensures ParseGates(Split(s, PIECE_SEPARATOR), parseFloat).Err?
  {
    var pieces := Split(s, PIECE_SEPARATOR);
    // the separator ends with a space, the text with `)`
    SplitLastKeepsEnd(s, PIECE_SEPARATOR);
    PieceEndingInParenFails(pieces[|pieces| - 1], parseFloat);
  }

  /** The trailing word of a text that ends with a space and then a word is
      that word. */
  lemma {:induction false} TrailingWordAfterSpace(prefix: string, w: string)
    requires |prefix| > 0 && IsSpace(prefix[|prefix| - 1])
    requires forall k :: 0 <= k < |w| ==> !IsSpace(w[k])
    ensures TrailingWord(prefix + w) == w
    decreases |w|
  {
    if |w| == 0 {
      assert prefix + w == prefix;
    } else {
      var init := w[..|w| - 1];
      assert (prefix + w)[..|prefix + w| - 1] == prefix + init;
      TrailingWordAfterSpace(prefix, init);
      assert init + [w[|w| - 1]] == w;
    }
  }

  /** A CX notation with its closing parenthesis cut off, as every piece but
      the last one is, parses back to the same CX; with the parenthesis
      kept it raises `ValueError`. */
  lemma CXNotationParses(g: Gate, showReal: real -> string, parseFloat: string -> Option<real>)
    requires g.CX? && ValidCXPair(g.index1, g.index2)
    ensures var n := Notation(g, showReal);
      && ParsePiece(n[..|n| - 1], parseFloat) == Ok(BuiltCX(g))
      && ParsePiece(n, parseFloat) == Err(ValueError)
  {
    var n := Notation(g, showReal);
    assert n == "CX(" + [DigitChar(g.index1)] + ", " + [DigitChar(g.index2)] + ")";
    assert n[..|n| - 1][..2] == "CX";
  }

  /** A rotation piece `c(d, w`, where `w` is one word that `float()`
      accepts, parses to a rotation of the class `c` selects, with index
      character `d` and the angle read from `w`. */
  lemma RotationPieceParses(c: char, d: char, w: string, parseFloat: string -> Option<real>)
    requires c == 'X' || c == 'Y' || c == 'Z'
    requires |w| > 0 && forall k :: 0 <= k < |w| ==> !IsSpace(w[k])
    requires parseFloat(w).Some?
    ensures ParsePiece([c, '(', d, ',', ' '] + w, parseFloat)
      == Ok(BuiltRotation(if c == 'Y' then ClassY else ClassX, d, parseFloat(w).value))
  {
    var prefix := [c, '(', d, ',', ' '];
    var p := prefix + w;
    assert p[0] == c && p[1] == '(' && p[2] == d;
    assert p[..2] != "CX" by {
      assert p[..2][1] == '(';
    }
    assert p[|p| - 1] == w[|w| - 1];
    TrailingWordAfterSpace(prefix, w);
  }

  /** A rotation notation on a one-digit qubit with its closing parenthesis
      cut off parses back to a rotation with the same angle, when `float()`
      reads back what `str()` printed. Its class is Y for a Y gate and X
      for both X and Z gates. */
  lemma RotationNotationParses(g: Gate, showReal: real -> string, parseFloat: string -> Option<real>)
    requires g.IsRotation() && 0 <= g.qubitIndex < 10
    requires |showReal(g.theta)| > 0 && forall k :: 0 <= k < |showReal(g.theta)| ==> !IsSpace(showReal(g.theta)[k])
    requires parseFloat(showReal(g.theta)) == Some(g.theta)
    ensures var n := Notation(g, showReal);
      ParsePiece(n[..|n| - 1], parseFloat)
        == Ok(BuiltRotation(if g.Y? then ClassY else ClassX, DigitChar(g.qubitIndex), g.theta))
  {
    var n := Notation(g, showReal);
    var w := showReal(g.theta);
    var prefix := [Letter(g), '(', DigitChar(g.qubitIndex), ',', ' '];
    assert n == prefix + w + ")";
    assert n[..|n| - 1] == prefix + w;
    RotationPieceParses(Letter(g), DigitChar(g.qubitIndex), w, parseFloat);
  }

  /** What `add` may put in `gates`: a string, or a gate object. */
  datatype Item = StrItem(s: string) | GateObj(gate: Gate)

  /** `[gate.to_sting_notation() for gate in gates]`: a string in the list
      has no such method, so it raises `AttributeError`. */
  function Notations(items: seq<Item>, showReal: real -> string): (r: Result<seq<string>>)
    ensures r.Err? <==> exists k :: 0 <= k < |items| && items[k].StrItem?
    ensures r.Err? ==> r.error == AttributeError
    ensures r.Ok? ==> (|r.value| == |items|
      && forall k :: 0 <= k < |items| ==> r.value[k] == Notation(items[k].gate, showReal))
    decreases |items|
  {
    if |items| == 0 then Ok([])
    else if items[0].StrItem? then Err(AttributeError)
    else
      match Notations(items[1..], showReal)
      case Err(e) => Err(e)
      case Ok(rest) => Ok([Notation(items[0].gate, showReal)] + rest)
  }

  /** A join whose last element ends with `)` ends with `)`. */
  lemma {:induction false} JoinEndsWithParen(xs: seq<string>, sep: string)
    requires |xs| > 0 && |xs[|xs| - 1]| > 0 && xs[|xs| - 1][|xs[|xs| - 1]| - 1] == ')'
    ensures |Join(xs, sep)| > 0 && Join(xs, sep)[|Join(xs, sep)| - 1] == ')'
    decreases |xs|
  {
    if |xs| > 1 {
      JoinEndsWithParen(xs[1..], sep);
    }
  }

  /** The notations of a non-empty gate list, joined, end with `)`. */
  lemma NotationsJoinEndsWithParen(items: seq<Item>, showReal: real -> string)
    requires Notations(items, showReal).Ok?
    ensures var j := Join(Notations(items, showReal).value, ", ");
      |items| > 0 ==> |j| > 0 && j[|j| - 1] == ')'
  {
    if |items| > 0 {
      var ns := Notations(items, showReal).value;
      // the last item is a gate, whose notation ends with `)`
      assert !items[|items| - 1].StrItem?;
      var last := Notation(items[|items| - 1].gate, showReal);
      assert ns[|ns| - 1] == last && last[|last| - 1] == ')';
      JoinEndsWithParen(ns, ", ");
    }
  }

  /** `__str__`: the notations joined with ", ". */
  function CircuitText(items: seq<Item>, showReal: real -> string): (r: Result<string>)
    ensures r.Ok? <==> forall k :: 0 <= k < |items| ==> items[k].GateObj?
    ensures r.Err? ==> r.error == AttributeError
    ensures |items| == 0 ==> r == Ok("")
    ensures r.Ok? && |items| > 0 ==> |r.value| > 0 && r.value[|r.value| - 1] == ')'
  {
    match Notations(items, showReal)
    case Err(e) => Err(e)
    case Ok(ns) =>
      // the last item is a gate, whose notation ends with `)`
      NotationsJoinEndsWithParen(items, showReal);
      Ok(Join(ns, ", "))
  }

  /** The text of a non-empty list of gates cannot be read back by
      `add_from_string`. */
  lemma OwnTextDoesNotParse(items: seq<Item>, showReal: real -> string, parseFloat: string -> Option<real>)
    requires |items| > 0 && forall k :: 0 <= k < |items| ==> items[k].GateObj?
    requires RefusesClosingParen(parseFloat)
    ensures ParseGates(Split(CircuitText(items, showReal).value, PIECE_SEPARATOR), parseFloat).Err?
  {
    TextEndingInParenFails(CircuitText(items, showReal).value, parseFloat);
  }

  class QuantumCircuit {
    var qubitNumber: int
    var xLength: int
    /** Stored by the `length_y` setter; the `length_y` getter never reads it. */
    var yLength: int
    /** Stored by the `length_z` setter; the `length_z` getter never reads it. */
    var zLength: int
    var lengthCnot: int
    var hardwareBasisGates: set<string>
    var gates: seq<Item>

    ghost predicate Valid()
      reads this
    {
      AcceptableCnotBasis(hardwareBasisGates) && xLength > 0 && yLength > 0 && zLength > 0
    }

    /** What the setters' checks buy: on a valid object every length getter
        reports a positive length, and the basis holds `CNOT` and at least
        two of the rotation axes. */
    lemma ValidLengthsAndBasis()
      requires Valid()
      ensures LengthX() > 0 && LengthY() > 0 && LengthZ() > 0
      ensures "CNOT" in hardwareBasisGates && |hardwareBasisGates * {"X", "Y", "Z"}| >= 2
    {
      AcceptedCnotBasisShape(hardwareBasisGates);
    }

    /** The `length_x` getter. */
    function LengthX(): int
      reads this
    {
      xLength
    }

    /** The `length_y` getter returns the X length. */
    function LengthY(): int
      reads this
    {
      xLength
    }

    /** The `length_z` getter returns the X length. */
    function LengthZ(): int
      reads this
    {
      xLength
    }

    /** `QuantumCircuit(qubit_number)`: lengths 10, 10, 10, `length_cnot` 100,
        the full CNOT basis and no gates. */
    constructor (qubitNumber: int)
      ensures Valid()
      ensures this.qubitNumber == qubitNumber && gates == []
      ensures LengthX() == 10 && LengthY() == 10 && LengthZ() == 10 && lengthCnot == 100
      ensures yLength == 10 && zLength == 10
      ensures hardwareBasisGates == FULL_CNOT_BASIS
    {
      this.qubitNumber := qubitNumber;
      xLength, yLength, zLength := 10, 10, 10;
      lengthCnot := 100;
      hardwareBasisGates := FULL_CNOT_BASIS;
      gates := [];
    }

    /** The `length_x` setter. */
    method SetLengthX(length: Value) returns (err: Option<Error>)
      modifies this`xLength
      ensures err == LengthCheck(length)
      ensures LengthX() == if err.None? then length.n else old(LengthX())
      ensures LengthY() == LengthX() && LengthZ() == LengthX()
      ensures old(Valid()) ==> Valid()
    {
      err := LengthCheck(length);
      if err.None? {
        xLength := length.n;
      }
    }

    /** The `length_y` setter stores the value, yet what `length_y` reads
        does not change. */
    method SetLengthY(length: Value) returns (err: Option<Error>)
      modifies this`yLength
      ensures err == LengthCheck(length)
      ensures yLength == if err.None? then length.n else old(yLength)
      ensures LengthY() == old(LengthY())
      ensures old(Valid()) ==> Valid()
    {
      err := LengthCheck(length);
      if err.None? {
        yLength := length.n;
      }
    }

    /** The `length_z` setter stores the value, yet what `length_z` reads
        does not change. */
    method SetLengthZ(length: Value) returns (err: Option<Error>)
      modifies this`zLength
      ensures err == LengthCheck(length)
      ensures zLength == if err.None? then length.n else old(zLength)
      ensures LengthZ() == old(LengthZ())
      ensures old(Valid()) ==> Valid()
    {
      err := LengthCheck(length);
      if err.None? {
        zLength := length.n;
      }
    }

    /** The `hardware_basis_gates` setter: only the four CNOT sets are stored. */
    method SetHardwareBasisGates(basisGates: set<string>) returns (err: Option<Error>)
      modifies this`hardwareBasisGates
      ensures err.None? <==> AcceptableCnotBasis(basisGates)
      ensures err.Some? ==> err.value == ValueError
      ensures hardwareBasisGates == if err.None? then basisGates else old(hardwareBasisGates)
      ensures old(Valid()) ==> Valid()
    {
      if !AcceptableCnotBasis(basisGates) {
        return Some(ValueError);
      }
      hardwareBasisGates := basisGates;
      return None;
    }

    /** `add`: appends its argument only when it is a string. */
    method Add(gate: Item)
      modifies this`gates
      ensures gates == if gate.StrItem? then old(gates) + [gate] else old(gates)
    {
      if gate.StrItem? {
        gates := gates + [gate];
      }
    }

    /** `add_from_string`: the pieces are parsed in order and the first
        failure is raised. Every object built is a gate, which `add` ignores
        (see `Add`), so the calls to `add` are left out and the method,
        which modifies nothing, leaves `gates` as it was. */
    method AddFromString(gatesInString: string, parseFloat: string -> Option<real>)
      returns (err: Option<Error>)
      ensures err.None? <==> ParseGates(Split(gatesInString, PIECE_SEPARATOR), parseFloat).Ok?
      ensures err.Some? ==> err.value == ParseGates(Split(gatesInString, PIECE_SEPARATOR), parseFloat).error
    {
      var pieces := Split(gatesInString, PIECE_SEPARATOR);
      for i := 0 to |pieces|
        invariant ParseGates(pieces[..i], parseFloat).Ok?
      {
        assert pieces[..i + 1][..i] == pieces[..i];
        var built := ParsePiece(pieces[i], parseFloat);
        if built.Err? {
          assert ParseGates(pieces[..i + 1], parseFloat) == Err(built.error);
          PrefixFailureIsFinal(pieces, i + 1, parseFloat);
          return Some(built.error);
        }
      }
      assert pieces[..|pieces|] == pieces;
      return None;
    }

    /** `__str__`. */
    function Str(showReal: real -> string): (r: Result<string>)
      reads this
      ensures r.Ok? <==> forall k :: 0 <= k < |gates| ==> gates[k].GateObj?
      ensures gates == [] ==> r == Ok("")
    {
      CircuitText(gates, showReal)
    }
  }

  /** Once a prefix of the pieces fails, the whole list fails the same way. */
  lemma {:induction false} PrefixFailureIsFinal(pieces: seq<string>, n: nat, parseFloat: string -> Option<real>)
    requires n <= |pieces| && ParseGates(pieces[..n], parseFloat).Err?
    ensures ParseGates(pieces, parseFloat) == ParseGates(pieces[..n], parseFloat)
    decreases |pieces| - n
  {
    if n < |pieces| {
      assert pieces[..n + 1][..n] == pieces[..n];
      PrefixFailureIsFinal(pieces, n + 1, parseFloat);
    } else {
      assert pieces[..n] == pieces;
    }
  }
}
