/** The child normaliser of the shared screen wrapper
    (app/sharedComponents/ScreenComponent.tsx): React children are walked,
    nothing-values become null, bare strings and numbers are wrapped in a
    `Text` element, and elements with children are cloned around their
    normalised children. */
module ScreenComponent {
  import opened Js

  /** A React node. `Other` stands for any value that is none of the
      kinds tested here (a function, a plain object, a portal, ...). */
  datatype Node =
    | Null
    | Undefined
    | Bool(b: bool)
    | Str(s: string)
    | Num(n: int)
    | Element(tag: string, key: Option<string>, props: map<string, string>, children: Option<Node>)
    | Array(items: seq<Node>)
    | Other(description: string)

  const TEXT := "Text"

  /** JavaScript truthiness of a node. */
  predicate Truthy(n: Node) {
    match n
    case Null => false
    case Undefined => false
    case Bool(b) => b
    case Str(s) => s != ""
    case Num(x) => x != 0
    case _ => true
  }

  /** `children == null || typeof children === 'boolean'`. */
  predicate IsNothing(n: Node) {
    n.Null? || n.Undefined? || n.Bool?
  }

  /** `typeof children === 'string' || typeof children === 'number'`. */
  predicate IsScalar(n: Node) {
    n.Str? || n.Num?
  }

  /** `<Text key={key}>{n}</Text>`. */
  function TextOf(n: Node, key: Option<string>): Node {
    Element(TEXT, key, map[], Some(n))
  }

  /** An element whose `props.children` is truthy. */
  predicate HasTruthyChildren(n: Node) {
    n.Element? && n.children.Some? && Truthy(n.children.value)
  }

  /** `processChildren`. */
  function ProcessChildren(c: Node): Node
    decreases c, 1
  {
    if IsNothing(c) then Null
    else if IsScalar(c) then TextOf(c, None)
    else if c.Array? then
      Array(seq(|c.items|, i requires 0 <= i < |c.items| => ProcessItem(c.items[i], i)))
    else if HasTruthyChildren(c) then c.(children := Some(ProcessChildren(c.children.value)))
    else c
  }

  /** The callback of `children.map` for the entry at `index`. A cloned
      element keeps its key or, when that is falsy, gets the index. */
  function ProcessItem(child: Node, index: nat): Node
    decreases child, 0
  {
    if IsNothing(child) then Null
    else if IsScalar(child) then TextOf(child, Some(NatToString(index)))
    else if HasTruthyChildren(child) then
      child.(key := Some(if StrTruthy(child.key) then child.key.value else NatToString(index)),
             children := Some(ProcessChildren(child.children.value)))
    else child
  }

  // ---------------------------------------------------------------------
  // Case by case

  /** Null, undefined and booleans render nothing. */
  lemma NothingBecomesNull(c: Node)
    requires IsNothing(c)
    ensures ProcessChildren(c) == Null
  {
  }

  /** A string or a number becomes one `Text` element holding it. */
  lemma ScalarIsWrapped(c: Node)
    requires IsScalar(c)
    ensures ProcessChildren(c) == Element(TEXT, None, map[], Some(c))
  {
  }

  /** An array becomes an array of the same length, entry by entry: nothing
      becomes null, a scalar becomes `Text` keyed by its index, an element
      with truthy children is cloned with its key (or the index) and
      normalised children, and anything else, nested arrays included, is
      kept. */
  lemma ArrayIsMapped(items: seq<Node>, i: nat)
    requires i < |items|
    ensures ProcessChildren(Array(items)).Array?
    ensures |ProcessChildren(Array(items)).items| == |items|
    ensures var r := ProcessChildren(Array(items)).items[i];
            var x := items[i];
            (IsNothing(x) ==> r == Null)
            && (IsScalar(x) ==> r == Element(TEXT, Some(NatToString(i)), map[], Some(x)))
            && (HasTruthyChildren(x) ==>
                  r.Element? && r.tag == x.tag && r.props == x.props
                  && r.key == (if StrTruthy(x.key) then x.key else Some(NatToString(i)))
                  && r.children == Some(ProcessChildren(x.children.value)))
            && (!IsNothing(x) && !IsScalar(x) && !HasTruthyChildren(x) ==> r == x)
  {
  }

  /** An element with truthy children is cloned with the same tag, key and
      props around its normalised children; one with falsy children, and any
      other value, is returned unchanged. */
  lemma ElementIsCloned(c: Node)
    requires c.Element? || c.Other?
    ensures HasTruthyChildren(c) ==>
              ProcessChildren(c) == Element(c.tag, c.key, c.props, Some(ProcessChildren(c.children.value)))
    ensures !HasTruthyChildren(c) ==> ProcessChildren(c) == c
  {
  }

  // ---------------------------------------------------------------------
  // What the normaliser achieves

  /** No string, number, boolean or undefined is left where React Native
      would render it outside a `Text`: scalars appear only as the children
      of a `Text` element. The exceptions are the ones the code leaves alone:
      falsy children of an element and arrays nested inside an array. */
  predicate Clean(n: Node)
    decreases n
  {
    match n
    case Null => true
    case Other(_) => true
    case Undefined => false
    case Bool(_) => false
    case Str(_) => false
    case Num(_) => false
    case Array(items) => forall i | 0 <= i < |items| :: items[i].Array? || Clean(items[i])
    case Element(tag, _, _, children) =>
      children.None? || !Truthy(children.value)
      || (tag == TEXT && IsScalar(children.value)) || Clean(children.value)
  }

  lemma {:induction false} ProcessedIsClean(c: Node)
    ensures Clean(ProcessChildren(c))
    decreases c, 1
  {
    if c.Array? {
      var r := ProcessChildren(c);
      forall i | 0 <= i < |c.items| ensures r.items[i].Array? || Clean(r.items[i]) {
        ProcessedItemIsClean(c.items[i], i);
      }
    } else if !IsNothing(c) && !IsScalar(c) && HasTruthyChildren(c) {
      ProcessedIsClean(c.children.value);
    }
  }

  lemma {:induction false} ProcessedItemIsClean(x: Node, index: nat)
    ensures ProcessItem(x, index).Array? || Clean(ProcessItem(x, index))
    decreases x, 0
  {
    if !IsNothing(x) && !IsScalar(x) && HasTruthyChildren(x) {
      ProcessedIsClean(x.children.value);
    }
  }

  /** The text a node shows, in render order: nothing-values show nothing,
      a number shows its decimal form, and elements and arrays show the text
      of what they contain. */
  function Content(n: Node): seq<string>
    decreases n
  {
    match n
    case Null => []
    case Undefined => []
    case Bool(_) => []
    case Other(_) => []
    case Str(s) => [s]
    case Num(x) => [IntToString(x)]
    case Element(_, _, _, children) => if children.Some? then Content(children.value) else []
    case Array(items) => Flatten(seq(|items|, i requires 0 <= i < |items| => Content(items[i])))
  }

  function Flatten(parts: seq<seq<string>>): seq<string> {
    if parts == [] then [] else parts[0] + Flatten(parts[1..])
  }

  /** Normalising never adds, drops or reorders visible text. */
  lemma {:induction false} ContentPreserved(c: Node)
    ensures Content(ProcessChildren(c)) == Content(c)
    decreases c, 1
  {
    if c.Array? {
      var r := ProcessChildren(c);
      var before := seq(|c.items|, i requires 0 <= i < |c.items| => Content(c.items[i]));
      var after := seq(|r.items|, i requires 0 <= i < |r.items| => Content(r.items[i]));
      forall i | 0 <= i < |c.items| ensures after[i] == before[i] {
        ItemContentPreserved(c.items[i], i);
      }
      assert after == before;
    } else if !IsNothing(c) && !IsScalar(c) && HasTruthyChildren(c) {
      ContentPreserved(c.children.value);
    }
  }

  lemma {:induction false} ItemContentPreserved(x: Node, index: nat)
    ensures Content(ProcessItem(x, index)) == Content(x)
    decreases x, 0
  {
    if !IsNothing(x) && !IsScalar(x) && HasTruthyChildren(x) {
      ContentPreserved(x.children.value);
    }
  }
}
