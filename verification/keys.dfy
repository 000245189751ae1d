/**
 Keyboard codes, as `KeyboardEvent.code` reports them. The game reacts to
 nine codes by name; every other code is carried as `Other`. `Parse` and
 `Code` translate between the two views.
 */
module Keys {
  datatype Key =
    | KeyW | ArrowUp | KeyS | ArrowDown | KeyA | ArrowLeft | KeyD | ArrowRight
    | Space
    | Other(code: string)

  /** The `event.code` string of a key. */
  function Code(k: Key): string {
    match k
    case KeyW => "KeyW"
    case ArrowUp => "ArrowUp"
    case KeyS => "KeyS"
    case ArrowDown => "ArrowDown"
    case KeyA => "KeyA"
    case ArrowLeft => "ArrowLeft"
    case KeyD => "KeyD"
    case ArrowRight => "ArrowRight"
    case Space => "Space"
    case Other(c) => c
  }

  /** The codes the game names. */
  const NamedCodes: set<string> :=
    {"KeyW", "ArrowUp", "KeyS", "ArrowDown", "KeyA", "ArrowLeft", "KeyD", "ArrowRight", "Space"}

  /** The key an `event.code` string stands for. */
  function Parse(c: string): (k: Key)
    ensures k.Other? <==> c !in NamedCodes
  {
    if c == "KeyW" then KeyW
    else if c == "ArrowUp" then ArrowUp
    else if c == "KeyS" then KeyS
    else if c == "ArrowDown" then ArrowDown
    else if c == "KeyA" then KeyA
    else if c == "ArrowLeft" then ArrowLeft
    else if c == "KeyD" then KeyD
    else if c == "ArrowRight" then ArrowRight
    else if c == "Space" then Space
    else Other(c)
  }

  /** A key written the one way `Parse` writes it: `Other` never carries a named code. */
  predicate Canonical(k: Key) {
    k.Other? ==> k.code !in NamedCodes
  }

  /** Parsing a code and writing it back gives the same code, and the parsed key is canonical. */
  lemma CodeOfParse(c: string)
    ensures Code(Parse(c)) == c
    ensures Canonical(Parse(c))
  {
  }

  /** Writing a canonical key as a code and parsing it back gives the same key. */
  lemma ParseOfCode(k: Key)
    requires Canonical(k)
    ensures Parse(Code(k)) == k
  {
  }

  /** Two codes stand for the same key exactly when they are the same code. */
  lemma ParseInjective(a: string, b: string)
    ensures Parse(a) == Parse(b) <==> a == b
  {
    CodeOfParse(a);
    CodeOfParse(b);
  }
}
