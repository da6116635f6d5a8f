/**
 The text form written by `writeTo`: "a ± |b|i ± |c|j ± |d|k".

 The real part is written as it is; each imaginary coefficient is written as
 a separator that carries its sign followed by its magnitude and the unit
 name. The output is modelled as a sequence of tokens: a `Number` stands
 for a coefficient as the stream would render it (the fixed three-decimal
 rendering itself is not modelled), a `Text` for the literal strings.
 */
module QuaternionFormat {
  import opened Quaternions

  datatype Token = Number(value: real) | Text(text: string)

  datatype Option<T> = None | Some(value: T)

  /** The separator in front of an imaginary coefficient: " + " for x ≥ 0, " - " otherwise. */
  function SignText(x: real): (t: string)
    ensures t == " - " <==> x < 0.0
    ensures t == " + " <==> !(x < 0.0)
  {
    if x >= 0.0 then " + " else " - "
  }

  /** `std::abs` on a coefficient. */
  function Magnitude(x: real): (m: real)
    ensures m >= 0.0
    ensures m == x || m == -x
  {
    if x >= 0.0 then x else -x
  }

  /** One imaginary term: its separator, its magnitude and the unit name. */
  function Term(x: real, unit: string): seq<Token>
  {
    [Text(SignText(x)), Number(Magnitude(x)), Text(unit)]
  }

  /** The tokens `writeTo` puts on the stream for q. */
  function WriteTo(q: Quaternion): (ts: seq<Token>)
    ensures |ts| == 10
    ensures ts[0] == Number(q.a)
    ensures ts[1] == Text(SignText(q.b)) && ts[2] == Number(Magnitude(q.b))
    ensures ts[4] == Text(SignText(q.c)) && ts[5] == Number(Magnitude(q.c))
    ensures ts[7] == Text(SignText(q.d)) && ts[8] == Number(Magnitude(q.d))
    ensures ts[3] == Text("i") && ts[6] == Text("j") && ts[9] == Text("k")
  {
    [Number(q.a)] + Term(q.b, "i") + Term(q.c, "j") + Term(q.d, "k")
  }

  /**
   The coefficient a separator and a magnitude stand for, if the pair is one
   `writeTo` can produce: the magnitude is non-negative, and a " - "
   separator is only ever followed by a positive magnitude.
   */
  function ReadSigned(sign: Token, magnitude: Token): Option<real>
  {
    if !magnitude.Number? then None
    else if sign == Text(" + ") && magnitude.value >= 0.0 then Some(magnitude.value)
    else if sign == Text(" - ") && magnitude.value > 0.0 then Some(-magnitude.value)
    else None
  }

  /** Reads a token sequence of the shape `writeTo` produces back into a quaternion. */
  function Parse(ts: seq<Token>): Option<Quaternion>
  {
    if |ts| != 10 || !ts[0].Number?
       || ts[3] != Text("i") || ts[6] != Text("j") || ts[9] != Text("k")
    then None
    else
      match (ReadSigned(ts[1], ts[2]), ReadSigned(ts[4], ts[5]), ReadSigned(ts[7], ts[8]))
      case (Some(b), Some(c), Some(d)) => Some(Quaternion(ts[0].value, b, c, d))
      case _ => None
  }

  /**
   The sign rule: the separator before each imaginary coefficient is " - "
   exactly when that coefficient is negative and " + " exactly when it is
   not, and the magnitude that follows is its absolute value.
   */
  lemma SignRule(q: Quaternion)
    ensures WriteTo(q)[1] == Text(" - ") <==> q.b < 0.0
    ensures WriteTo(q)[4] == Text(" - ") <==> q.c < 0.0
    ensures WriteTo(q)[7] == Text(" - ") <==> q.d < 0.0
    ensures WriteTo(q)[1] == Text(" + ") <==> q.b >= 0.0
    ensures WriteTo(q)[4] == Text(" + ") <==> q.c >= 0.0
    ensures WriteTo(q)[7] == Text(" + ") <==> q.d >= 0.0
    ensures WriteTo(q)[2] == Number(Magnitude(q.b))
    ensures WriteTo(q)[5] == Number(Magnitude(q.c))
    ensures WriteTo(q)[8] == Number(Magnitude(q.d))
  {
  }

  /** A signed coefficient survives being written as separator and magnitude. */
  lemma ReadSignedTerm(x: real, unit: string)
    ensures ReadSigned(Term(x, unit)[0], Term(x, unit)[1]) == Some(x)
  {
  }

  /** A separator and magnitude read back as x are exactly the ones written for x. */
  lemma ReadSignedOnlyTerm(sign: Token, magnitude: Token, x: real)
    requires ReadSigned(sign, magnitude) == Some(x)
    ensures sign == Text(SignText(x)) && magnitude == Number(Magnitude(x))
  {
  }

  /** Reading back what `writeTo` wrote gives the same quaternion. */
  lemma ParseWriteTo(q: Quaternion)
    ensures Parse(WriteTo(q)) == Some(q)
  {
    var ts := WriteTo(q);
    ReadSignedTerm(q.b, "i");
    ReadSignedTerm(q.c, "j");
    ReadSignedTerm(q.d, "k");
    assert ts[1..3] == Term(q.b, "i")[0..2];
    assert ts[4..6] == Term(q.c, "j")[0..2];
    assert ts[7..9] == Term(q.d, "k")[0..2];
  }

  /** The written form is canonical: a token sequence reads as q exactly when it is what `writeTo` writes for q. */
  lemma ParseExactlyWriteTo(ts: seq<Token>, q: Quaternion)
    ensures Parse(ts) == Some(q) <==> ts == WriteTo(q)
  {
    if ts == WriteTo(q) {
      ParseWriteTo(q);
    }
    if Parse(ts) == Some(q) {
      ReadSignedOnlyTerm(ts[1], ts[2], q.b);
      ReadSignedOnlyTerm(ts[4], ts[5], q.c);
      ReadSignedOnlyTerm(ts[7], ts[8], q.d);
      assert ts == WriteTo(q);
    }
  }

  /** 5 - 6i + 7j - 8k is written as "5 - 6i + 7j - 8k". */
  lemma WriteToExample()
    ensures WriteTo(Quaternion(5.0, -6.0, 7.0, -8.0))
         == [Number(5.0), Text(" - "), Number(6.0), Text("i"),
             Text(" + "), Number(7.0), Text("j"),
             Text(" - "), Number(8.0), Text("k")]
  {
  }
}
