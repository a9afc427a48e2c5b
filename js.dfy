/**
 * The few pieces of JavaScript semantics the handler relies on: values that
 * may be null or undefined, truthiness, string conversion inside a template
 * literal, thrown errors, and the evaluation of a template literal.
 */
module Js {
  import opened Text

  /** A field of a database row or of a JSON payload: a string, `null` or `undefined`. */
  datatype JsValue = Str(s: string) | Null | Undefined

  /** JavaScript truthiness of such a value: only a non-empty string is truthy. */
  predicate Truthy(v: JsValue)
  {
    v.Str? && v.s != ""
  }

  /** What `${v}` inserts into a template literal. */
  function Interpolate(v: JsValue): string
  {
    match v
    case Str(s) => s
    case Null => "null"
    case Undefined => "undefined"
  }

  /** A reference that may be `null`, such as the row a foreign-key join finds. */
  datatype Option<T> = None | Some(value: T)

  /**
   * The outcome of evaluating an expression or awaiting a promise: a normal
   * value, or a thrown error of which only `error.message` is ever read.
   */
  datatype Completion<T> = Normal(value: T) | Throw(message: string)

  /** The message of the TypeError raised when a property is read from `null`. */
  function NullPropertyError(property: string): string
  {
    "Cannot read properties of null (reading '" + property + "')"
  }

  /**
   * One element of a template literal: a fixed text run written in the
   * source (a quasi), or the string produced by a `${...}` substitution.
   */
  datatype TemplatePart = Quasi(text: string) | Substitution(value: string)

  function PartText(p: TemplatePart): string
  {
    match p
    case Quasi(t) => t
    case Substitution(v) => v
  }

  /** The string a template literal evaluates to: its parts joined in order. */
  function Render(parts: seq<TemplatePart>): string
  {
    if parts == [] then "" else PartText(parts[0]) + Render(parts[1..])
  }

  /** Evaluating two runs of parts one after the other joins their strings. */
  lemma {:induction false} RenderAppend(p: seq<TemplatePart>, q: seq<TemplatePart>)
    ensures Render(p + q) == Render(p) + Render(q)
  {
    if p != [] {
      assert (p + q)[1..] == p[1..] + q;
      RenderAppend(p[1..], q);
    } else {
      assert p + q == q;
    }
  }

  /** Evaluating a template that ends in three known parts. */
  lemma RenderEndsWithThree(p: seq<TemplatePart>, a: TemplatePart, b: TemplatePart, c: TemplatePart)
    ensures Render(p + [a, b, c]) == Render(p) + (PartText(a) + PartText(b) + PartText(c))
  {
    RenderAppend(p, [a, b, c]);
    RenderThree(a, b, c);
  }

  lemma RenderThree(a: TemplatePart, b: TemplatePart, c: TemplatePart)
    ensures Render([a, b, c]) == PartText(a) + PartText(b) + PartText(c)
  {
    assert [a, b, c][1..] == [b, c];
    assert [b, c][1..] == [c];
    assert Render([c]) == PartText(c) by { assert [c][1..] == []; }
  }

  lemma RenderTwo(a: TemplatePart, b: TemplatePart)
    ensures Render([a, b]) == PartText(a) + PartText(b)
  {
    assert [a, b][1..] == [b];
    assert Render([b]) == PartText(b) by { assert [b][1..] == []; }
  }

  /** Evaluating a template of six parts. */
  lemma RenderSix(a: TemplatePart, b: TemplatePart, c: TemplatePart,
                  d: TemplatePart, e: TemplatePart, f: TemplatePart)
    ensures Render([a, b, c, d, e, f])
         == PartText(a) + PartText(b) + PartText(c) + PartText(d) + PartText(e) + PartText(f)
  {
    assert [a, b, c, d, e, f] == [a, b, c] + [d, e, f];
    RenderAppend([a, b, c], [d, e, f]);
    RenderThree(a, b, c);
    RenderThree(d, e, f);
  }

  /** Evaluating a template of eight parts. */
  lemma RenderEight(a: TemplatePart, b: TemplatePart, c: TemplatePart, d: TemplatePart,
                    e: TemplatePart, f: TemplatePart, g: TemplatePart, h: TemplatePart)
    ensures Render([a, b, c, d, e, f, g, h])
         == PartText(a) + PartText(b) + PartText(c) + PartText(d)
          + PartText(e) + PartText(f) + PartText(g) + PartText(h)
  {
    assert [a, b, c, d, e, f, g, h] == [a, b, c, d, e, f] + [g, h];
    RenderAppend([a, b, c, d, e, f], [g, h]);
    RenderSix(a, b, c, d, e, f);
    RenderTwo(g, h);
  }
}
