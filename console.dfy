/** What the program writes to the terminal: the step headers of logStep
    (index.js:30-40), the errors of the start-up checks (index.js:79-100), the
    --npm notice (index.js:102-107) and the closing banner (index.js:182-183). */
module Console {
  import opened Text

  datatype Line =
    | Blank                                        // console.log("")
    | Header(current: nat, total: nat, text: string)
    | Rule                                         // the dashed line under a header
    | NpmNotice
    | NodeTooOld(version: string)
    | AlreadyExists
    | NodeVersionRejected                          // the message of index.js:100
    | Finished

  /** The lines written with console.error rather than console.log. */
  predicate ToStderr(l: Line) {
    l.NodeTooOld? || l.AlreadyExists? || l.NodeVersionRejected?
  }

  /** The exact text of a line. compose(f, g)(x) is f(g(x)), so a header is bold
      inside green and an error is red inside bold. */
  function Render(l: Line): string {
    match l
    case Blank => ""
    case Header(current, total, text) =>
      Green(Bold(NatToString(current) + "/" + NatToString(total) + " " + text))
    case Rule => "----------------------------"
    case NpmNotice =>
      Yellow("Detected --npm flag. NPM will be used as the package manager for this install.")
    case NodeTooOld(version) =>
      Bold(Red("Your current Node version is " + version + ". Your Node version must be 10.* or above."))
    case AlreadyExists => Bold(Red("That project already exists."))
    case NodeVersionRejected => "Node version must be >= 10.*"
    case Finished => Bold("Finished!")
  }

  /** The step headers among the lines, in order. */
  function HeadersOf(lines: seq<Line>): (r: seq<Line>)
    ensures |r| <= |lines|
    ensures forall i :: 0 <= i < |r| ==> r[i].Header?
  {
    if lines == [] then []
    else (if lines[0].Header? then [lines[0]] else []) + HeadersOf(lines[1..])
  }

  lemma {:induction false} HeadersOfAppend(a: seq<Line>, b: seq<Line>)
    ensures HeadersOf(a + b) == HeadersOf(a) + HeadersOf(b)
  {
    if a == [] {
      assert a + b == b;
    } else {
      assert (a + b)[0] == a[0] && (a + b)[1..] == a[1..] + b;
      HeadersOfAppend(a[1..], b);
    }
  }
}
