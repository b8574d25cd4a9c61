/**
 * tools/python3/caliper.py: a parser for the indented text tables a profiler prints, one timer
 * per line ("<key> <min> <max> <avg> <time>"), nesting shown by indentation, into a tree of Nodes.
 *
 * Strings are sequences of characters; Python's str.strip/lstrip without arguments strip the
 * characters str.isspace() accepts, listed in IsPyWhitespace.
 */
module Caliper {
  import opened Wrappers

  // ---------------------------------------------------------------------------------------
  // string helpers with Python's meaning

  /** The characters str.isspace() accepts. */
  predicate IsPyWhitespace(c: char)
  {
    var n := c as int;
    n == 0x20 || 0x09 <= n <= 0x0D || 0x1C <= n <= 0x1F || n == 0x85 || n == 0xA0 || n == 0x1680
    || 0x2000 <= n <= 0x200A || n == 0x2028 || n == 0x2029 || n == 0x202F || n == 0x205F || n == 0x3000
  }

  /** The number of leading characters satisfying "is whitespace" (the indent of a line). */
  function LeadingWhitespace(s: string): (n: nat)
    ensures n <= |s|
    ensures forall i :: 0 <= i < n ==> IsPyWhitespace(s[i])
    ensures n < |s| ==> !IsPyWhitespace(s[n])
  {
    if |s| == 0 || !IsPyWhitespace(s[0]) then 0 else 1 + LeadingWhitespace(s[1..])
  }

  /** s.lstrip() */
  function LStrip(s: string): string
  {
    s[LeadingWhitespace(s)..]
  }

  /** len(line) - len(line.lstrip()) */
  function Indent(line: string): (n: nat)
    ensures n == |line| - |LStrip(line)|
  {
    LeadingWhitespace(line)
  }

  /** s.lstrip(c) */
  function LStripChar(s: string, c: char): string
  {
    if |s| > 0 && s[0] == c then LStripChar(s[1..], c) else s
  }

  /** s.lstrip(c) is the suffix of s left after its leading run of c, and starts with another character. */
  lemma {:induction false} LStripCharIsSuffix(s: string, c: char)
    ensures var r := LStripChar(s, c);
      && |r| <= |s| && r == s[|s| - |r|..]
      && (r != [] ==> r[0] != c)
      && forall i :: 0 <= i < |s| - |r| ==> s[i] == c
  {
    if |s| > 0 && s[0] == c {
      LStripCharIsSuffix(s[1..], c);
    }
  }

  /** s.rstrip(c) */
  function RStripChar(s: string, c: char): string
  {
    if |s| > 0 && s[|s| - 1] == c then RStripChar(s[..|s| - 1], c) else s
  }

  /** s.rstrip(c) is the prefix of s before its trailing run of c, and ends with another character. */
  lemma {:induction false} RStripCharIsPrefix(s: string, c: char)
    ensures var r := RStripChar(s, c);
      && |r| <= |s| && r == s[..|r|]
      && (r != [] ==> r[|r| - 1] != c)
      && forall i :: |r| <= i < |s| ==> s[i] == c
  {
    if |s| > 0 && s[|s| - 1] == c {
      RStripCharIsPrefix(s[..|s| - 1], c);
    }
  }

  /** s.strip(c) */
  function StripChar(s: string, c: char): string
  {
    RStripChar(LStripChar(s, c), c)
  }

  /** s.strip(c) neither starts nor ends with c. */
  lemma StripCharEnds(s: string, c: char)
    ensures var r := StripChar(s, c); r != [] ==> r[0] != c && r[|r| - 1] != c
  {
    var l := LStripChar(s, c);
    LStripCharIsSuffix(s, c);
    RStripCharIsPrefix(l, c);
    var r := RStripChar(l, c);
    if r != [] {
      assert r[0] == l[0];
    }
  }

  /** Whether "  " occurs in s. */
  predicate HasDoubleSpace(s: string)
  {
    exists i :: 0 <= i < |s| - 1 && s[i] == ' ' && s[i + 1] == ' '
  }

  /** s.replace("  ", " "): non-overlapping occurrences, left to right. */
  function ReplaceDoubleSpaces(s: string): (r: string)
    ensures |r| <= |s|
    ensures HasDoubleSpace(s) ==> |r| < |s|
  {
    if |s| >= 2 && s[0] == ' ' && s[1] == ' ' then " " + ReplaceDoubleSpaces(s[2..])
    else if |s| == 0 then ""
    else
      [s[0]] + ReplaceDoubleSpaces(s[1..])
  }

  /** s with every run of spaces collapsed to one; afterSpace: the character before s was a space. */
  function SqueezeAfter(s: string, afterSpace: bool): string
  {
    if |s| == 0 then ""
    else if s[0] == ' ' && afterSpace then SqueezeAfter(s[1..], true)
    else [s[0]] + SqueezeAfter(s[1..], s[0] == ' ')
  }

  /** s with every run of spaces collapsed to a single space. */
  function Squeeze(s: string): string
  {
    SqueezeAfter(s, false)
  }

  /** One round of replace keeps what the runs of spaces collapse to. */
  lemma {:induction false} ReplaceKeepsSqueeze(s: string, afterSpace: bool)
    ensures SqueezeAfter(ReplaceDoubleSpaces(s), afterSpace) == SqueezeAfter(s, afterSpace)
  {
    if |s| >= 2 && s[0] == ' ' && s[1] == ' ' {
      ReplaceKeepsSqueeze(s[2..], true);
      assert (" " + ReplaceDoubleSpaces(s[2..]))[1..] == ReplaceDoubleSpaces(s[2..]);
      assert s[1..][1..] == s[2..];
    } else if |s| > 0 {
      ReplaceKeepsSqueeze(s[1..], s[0] == ' ');
      assert ([s[0]] + ReplaceDoubleSpaces(s[1..]))[1..] == ReplaceDoubleSpaces(s[1..]);
    }
  }

  /** A string with no "  " is its own squeeze. */
  lemma {:induction false} SqueezeWithoutDoubleSpace(s: string, afterSpace: bool)
    requires !HasDoubleSpace(s) && !(afterSpace && |s| > 0 && s[0] == ' ')
    ensures SqueezeAfter(s, afterSpace) == s
  {
    if |s| > 0 {
      assert !HasDoubleSpace(s[1..]);
      if s[0] == ' ' && |s| > 1 {
        assert s[1] != ' ';
      }
      SqueezeWithoutDoubleSpace(s[1..], s[0] == ' ');
    }
  }

  /** A squeezed string has no "  ". */
  lemma {:induction false} SqueezeHasNoDoubleSpace(s: string, afterSpace: bool)
    ensures !HasDoubleSpace(SqueezeAfter(s, afterSpace))
    ensures afterSpace ==> SqueezeAfter(s, afterSpace) == [] || SqueezeAfter(s, afterSpace)[0] != ' '
  {
    if |s| > 0 {
      SqueezeHasNoDoubleSpace(s[1..], if s[0] == ' ' && afterSpace then true else s[0] == ' ');
      if !(s[0] == ' ' && afterSpace) {
        var t := SqueezeAfter(s[1..], s[0] == ' ');
        assert SqueezeAfter(s, afterSpace) == [s[0]] + t;
      }
    }
  }

  /** s.split(' '): the pieces between single spaces, empty ones included. */
  function Split(s: string): (r: seq<string>)
    ensures |r| >= 1
    ensures forall k :: 0 <= k < |r| ==> ' ' !in r[k]
  {
    if |s| == 0 then [""]
    else
      var rest := Split(s[1..]);
      if s[0] == ' ' then [""] + rest else [[s[0]] + rest[0]] + rest[1..]
  }

  /** ' '.join(pieces) */
  function Join(pieces: seq<string>): string
  {
    if |pieces| == 0 then "" else if |pieces| == 1 then pieces[0] else pieces[0] + " " + Join(pieces[1..])
  }

  /** Splitting on spaces and joining with spaces gives back the string. */
  lemma {:induction false} JoinSplit(s: string)
    ensures Join(Split(s)) == s
  {
    if |s| > 0 {
      JoinSplit(s[1..]);
      var rest := Split(s[1..]);
      if s[0] == ' ' {
        assert Join([""] + rest) == "" + " " + Join(rest);
      } else if |rest| > 1 {
        assert ([[s[0]] + rest[0]] + rest[1..])[1..] == rest[1..];
        assert Join(rest) == rest[0] + " " + Join(rest[1..]);
      }
    }
  }

  // ---------------------------------------------------------------------------------------
  // Node, parse_key and parse_node

  /** A dict built from items in order; a later item overrides an earlier one with the same key. */
  function MapOf(items: seq<(string, string)>): map<string, string>
  {
    if |items| == 0 then map[] else MapOf(items[..|items| - 1])[items[|items| - 1].0 := items[|items| - 1].1]
  }

  lemma MapOfFour(a: (string, string), b: (string, string), c: (string, string), d: (string, string))
    ensures MapOf([a, b, c, d]) == map[a.0 := a.1][b.0 := b.1][c.0 := c.1][d.0 := d.1]
  {
    assert [a][..0] == [];
    assert MapOf([a]) == map[a.0 := a.1];
    assert [a, b][..1] == [a];
    assert MapOf([a, b]) == map[a.0 := a.1][b.0 := b.1];
    assert [a, b, c][..2] == [a, b];
    assert MapOf([a, b, c]) == map[a.0 := a.1][b.0 := b.1][c.0 := c.1];
    assert [a, b, c, d][..3] == [a, b, c];
  }

  /** A node of the timer tree. */
  class Node {
    var key: string
    var kids: seq<Node>
    /** Always None: the constructor ignores its parent argument. */
    var parent: Node?
    var kwargs: map<string, string>

    /** Node(key, parent, **kwargs): empty kids, parent None whatever is given, kwargs copied item by item. */
    constructor (key: string, parent: Node?, kwargs: seq<(string, string)>)
      ensures this.key == key && kids == [] && this.parent == null && this.kwargs == MapOf(kwargs)
    {
      this.key := key;
      kids := [];
      this.parent := null;
      this.kwargs := map[];
      new;
      var i := 0;
      while i < |kwargs|
        invariant 0 <= i <= |kwargs|
        invariant this.key == key && kids == [] && this.parent == null
        invariant this.kwargs == MapOf(kwargs[..i])
      {
        this.kwargs := this.kwargs[kwargs[i].0 := kwargs[i].1];
        assert kwargs[..i + 1][..i] == kwargs[..i];
        i := i + 1;
      }
      assert kwargs[..i] == kwargs;
    }
  }

  /** parse_key(key, parent): f"{parent.key}_{key.strip('_')}".lstrip('_') */
  function ParseKey(key: string, parentKey: string): string
  {
    LStripChar(parentKey + "_" + StripChar(key, '_'), '_')
  }

  /** Under the root (key ""), a node's key is its own key with its underscores stripped. */
  lemma ParseKeyUnderRoot(key: string)
    ensures ParseKey(key, "") == StripChar(key, '_')
  {
    var k := StripChar(key, '_');
    StripCharEnds(key, '_');
    assert ("" + "_" + k)[1..] == k;
    assert LStripChar("" + "_" + k, '_') == LStripChar(k, '_');
    assert LStripChar(k, '_') == k;
  }

  /** Under a parent whose key does not start with '_', a key is the parent's, '_', and its own stripped. */
  lemma ParseKeyUnderNamed(key: string, parentKey: string)
    requires parentKey != [] && parentKey[0] != '_'
    ensures ParseKey(key, parentKey) == parentKey + "_" + StripChar(key, '_')
  {
  }

  /** The items parse_node gives the Node constructor. */
  function NodeItems(bits: seq<string>): seq<(string, string)>
    requires |bits| >= 5
  {
    [("min", bits[1]), ("max", bits[2]), ("avg", bits[3]), ("time", bits[4])]
  }

  /**
   * The fields parse_node reads from a line, before the key goes through parse_key: the first
   * token and min/max/avg/time from the next four of the line with its runs of spaces collapsed
   * and split on ' '; None when there are fewer than five tokens (bits[k] raises IndexError).
   */
  function LineFields(line: string): (r: Option<(string, map<string, string>)>)
    ensures r.Some? <==> |Split(Squeeze(line))| >= 5
    ensures r.Some? ==> var bits := Split(Squeeze(line));
      r.value.0 == bits[0]
      && r.value.1 == map["min" := bits[1], "max" := bits[2], "avg" := bits[3], "time" := bits[4]]
  {
    var bits := Split(Squeeze(line));
    if |bits| < 5 then None
    else
      var items := NodeItems(bits);
      MapOfFour(items[0], items[1], items[2], items[3]);
      assert items == [items[0], items[1], items[2], items[3]];
      Some((bits[0], MapOf(items)))
  }

  /** The fields of a line under a parent with the given key: the key goes through parse_key. */
  function UnderParent(fields: Option<(string, map<string, string>)>, parentKey: string): Option<(string, map<string, string>)>
  {
    match fields
    case None => None
    case Some((key, kwargs)) => Some((ParseKey(key, parentKey), kwargs))
  }

  /** What parse_node(line, parent) builds: the node's key and kwargs, or None for IndexError. */
  function NodeFields(line: string, parentKey: string): (r: Option<(string, map<string, string>)>)
    ensures r.Some? <==> |Split(Squeeze(line))| >= 5
    ensures r.Some? ==> var bits := Split(Squeeze(line));
      r.value.0 == ParseKey(bits[0], parentKey)
      && r.value.1 == map["min" := bits[1], "max" := bits[2], "avg" := bits[3], "time" := bits[4]]
  {
    UnderParent(LineFields(line), parentKey)
  }

  /**
   * parse_node: collapse "  " into " " until none is left (each round shortens the line), split
   * on ' ', and build the node.
   */
  method ParseNode(line: string, parent: Node) returns (r: Option<Node>)
    ensures r.None? <==> NodeFields(line, parent.key).None?
    ensures r.Some? ==> fresh(r.value) && r.value.kids == [] && r.value.parent == null
                        && (r.value.key, r.value.kwargs) == NodeFields(line, parent.key).value
  {
    var cur := line;
    while HasDoubleSpace(cur)
      invariant Squeeze(cur) == Squeeze(line)
      decreases |cur|
    {
      ReplaceKeepsSqueeze(cur, false);
      cur := ReplaceDoubleSpaces(cur);
    }
    SqueezeWithoutDoubleSpace(cur, false);
    var bits := Split(cur);
    if |bits| < 5 {
      return None;
    }
    var node := new Node(ParseKey(bits[0], parent.key), parent, NodeItems(bits));
    r := Some(node);
  }

  /** The space-collapsing loop leaves no "  " and ends on the squeeze of the line. */
  lemma CollapsedLineHasNoDoubleSpace(line: string)
    ensures !HasDoubleSpace(Squeeze(line))
    ensures Squeeze(ReplaceDoubleSpaces(line)) == Squeeze(line)
  {
    SqueezeHasNoDoubleSpace(line, false);
    ReplaceKeepsSqueeze(line, false);
  }

  // ---------------------------------------------------------------------------------------
  // parse_tab_hier

  /** The error parse_tab_hier raises, with the index of the line it raises at. */
  datatype ParseError = IndexError(line: nat) | KeyError(line: nat, indent: nat)

  /** What parse reads of a line: its indent and the fields of its stripped text. */
  datatype LineView = LineView(indent: nat, fields: Option<(string, map<string, string>)>)

  /** The view of one line. */
  function View(line: string): LineView
  {
    LineView(Indent(line), LineFields(LStrip(line)))
  }

  /** views holds the view of each line, in order. */
  predicate ViewsOf(views: seq<LineView>, lines: seq<string>)
  {
    |views| == |lines| && forall i {:trigger View(lines[i])} :: 0 <= i < |lines| ==> views[i] == View(lines[i])
  }

  /** The views of all lines, in order. */
  function Views(lines: seq<string>): (r: seq<LineView>)
    ensures ViewsOf(r, lines)
  {
    seq(|lines|, i requires 0 <= i < |lines| => View(lines[i]))
  }

  /**
   * The node made for a line: the first token of the line, the index of its parent (0: the root,
   * i: line i) and its kwargs; its key is KeyAt.
   */
  datatype LineNode = LineNode(token: string, parent: nat, kwargs: map<string, string>)

  /**
   * The state between two lines: the previous line's indent (-1 before the first), the previous
   * node, prev_parents (indent to the parent recorded for it) and the nodes made so far (the node
   * of line i is nodes[i - 1]).
   */
  datatype HierState = HierState(prevIndent: int, prevNode: nat, prevParents: map<nat, nat>, nodes: seq<LineNode>)

  /** Every node index in the state refers to the root or to a node already made. */
  predicate Consistent(st: HierState)
  {
    st.prevNode <= |st.nodes|
    && (forall d :: d in st.prevParents ==> st.prevParents[d] <= |st.nodes|)
  }

  /** Every node's parent is the root or a node of an earlier line. */
  predicate ParentsBefore(nodes: seq<LineNode>)
  {
    forall j :: 0 <= j < |nodes| ==> nodes[j].parent <= j
  }

  /** The key of node p: "" for the root, else parse_key of its token under its parent's key. */
  function KeyAt(nodes: seq<LineNode>, p: nat): string
    requires p <= |nodes| && ParentsBefore(nodes)
    decreases p
  {
    if p == 0 then "" else ParseKey(nodes[p - 1].token, KeyAt(nodes, nodes[p - 1].parent))
  }

  /**
   * One call of parse for line i: deeper than the previous line, the line is a kid of the
   * previous node, which is recorded as the parent for this indent; otherwise it is a kid of
   * the node recorded for its indent, and KeyError when none is; the line's fields are read
   * after its parent is found (IndexError when it has fewer than five tokens).
   */
  function Step(views: seq<LineView>, i: nat, st: HierState): (r: Result<HierState, ParseError>)
    requires 1 <= i < |views| && |st.nodes| == i - 1 && Consistent(st)
    ensures r.Ok? ==> |r.value.nodes| == i && Consistent(r.value) && r.value.nodes[..i - 1] == st.nodes
                      && r.value.prevNode == i && r.value.prevIndent == views[i].indent
  {
    var indent := views[i].indent;
    if indent > st.prevIndent then
      match views[i].fields
      case None => Err(IndexError(i))
      case Some(fields) =>
        Ok(HierState(indent, i, st.prevParents[indent := st.prevNode], st.nodes + [LineNode(fields.0, st.prevNode, fields.1)]))
    else if indent !in st.prevParents then Err(KeyError(i, indent))
    else
      var parent := st.prevParents[indent];
      match views[i].fields
      case None => Err(IndexError(i))
      case Some(fields) =>
        Ok(HierState(indent, i, st.prevParents, st.nodes + [LineNode(fields.0, parent, fields.1)]))
  }

  /** A line neither deeper nor at a recorded indent raises KeyError. */
  lemma StepKeyErrorAt(views: seq<LineView>, i: nat, st: HierState)
    requires 1 <= i < |views| && |st.nodes| == i - 1 && Consistent(st)
    requires !(views[i].indent > st.prevIndent) && views[i].indent !in st.prevParents
    ensures Step(views, i, st) == Err(KeyError(i, views[i].indent))
  {
  }

  /** A line too short for its fields raises IndexError once its parent is found. */
  lemma StepIndexErrorAt(views: seq<LineView>, i: nat, st: HierState)
    requires 1 <= i < |views| && |st.nodes| == i - 1 && Consistent(st)
    requires views[i].indent > st.prevIndent || views[i].indent in st.prevParents
    requires views[i].fields.None?
    ensures Step(views, i, st) == Err(IndexError(i))
  {
  }

  /** A step whose parent and fields are known adds the node for them. */
  lemma StepOk(views: seq<LineView>, i: nat, st: HierState, parent: nat, fields: (string, map<string, string>))
    requires 1 <= i < |views| && |st.nodes| == i - 1 && Consistent(st)
    requires if views[i].indent > st.prevIndent then parent == st.prevNode
             else views[i].indent in st.prevParents && parent == st.prevParents[views[i].indent]
    requires views[i].fields == Some(fields)
    ensures var indent := views[i].indent;
      Step(views, i, st)
      == Ok(HierState(indent, i, if indent > st.prevIndent then st.prevParents[indent := st.prevNode] else st.prevParents,
                      st.nodes + [LineNode(fields.0, parent, fields.1)]))
  {
  }

  /** The state after lines 1 .. n - 1 (line 0 is skipped), or the error raised on the way. */
  function Run(views: seq<LineView>, n: nat): (r: Result<HierState, ParseError>)
    requires 1 <= n <= |views|
    ensures r.Ok? ==> |r.value.nodes| == n - 1 && Consistent(r.value)
  {
    if n == 1 then Ok(HierState(-1, 0, map[], []))
    else
      match Run(views, n - 1)
      case Err(e) => Err(e)
      case Ok(st) => Step(views, n - 1, st)
  }

  /** parse_tab_hier over the views of the lines: the node of every line after the first, or the error. */
  function Hier(views: seq<LineView>): Result<seq<LineNode>, ParseError>
  {
    if |views| == 0 then Ok([])
    else
      match Run(views, |views|)
      case Err(e) => Err(e)
      case Ok(st) => Ok(st.nodes)
  }

  /** parse_tab_hier(lines) as a value. */
  function TabHier(lines: seq<string>): Result<seq<LineNode>, ParseError>
  {
    Hier(Views(lines))
  }

  /** The kids of node p, in the order they were added: the nodes whose parent is p, in line order. */
  function Kids(nodes: seq<LineNode>, p: nat): (r: seq<nat>)
    ensures |r| <= |nodes| && forall k :: 0 <= k < |r| ==> 1 <= r[k] <= |nodes|
  {
    if |nodes| == 0 then []
    else Kids(nodes[..|nodes| - 1], p) + (if nodes[|nodes| - 1].parent == p then [|nodes|] else [])
  }

  /** Line i opens a deeper level: the first line always does, else its indent exceeds the previous line's. */
  predicate Deeper(views: seq<LineView>, i: nat)
    requires 1 <= i < |views|
  {
    i == 1 || views[i].indent > views[i - 1].indent
  }

  /** The last line before n that opened a deeper level at indent d: its previous node is the parent recorded for d. */
  function LastOpening(views: seq<LineView>, n: nat, d: nat): (r: Option<nat>)
    requires n <= |views|
    ensures r.Some? ==> 1 <= r.value < n
  {
    if n <= 1 then None
    else if Deeper(views, n - 1) && views[n - 1].indent == d then Some(n - 1)
    else LastOpening(views, n - 1, d)
  }

  /** What the state after line n - 1 records for indent d is described by the lines alone. */
  lemma {:induction false} RunState(views: seq<LineView>, n: nat, d: nat)
    requires 1 <= n <= |views| && Run(views, n).Ok?
    ensures var st := Run(views, n).value;
      && (d in st.prevParents <==> LastOpening(views, n, d).Some?)
      && (d in st.prevParents ==> st.prevParents[d] == LastOpening(views, n, d).value - 1)
  {
    if n > 1 {
      var st := Run(views, n - 1).value;
      RunState(views, n - 1, d);
      assert Run(views, n) == Step(views, n - 1, st);
      StepRecords(views, n - 1, st, d);
      var opens := Deeper(views, n - 1) && views[n - 1].indent == d;
      assert opens <==> views[n - 1].indent > st.prevIndent && views[n - 1].indent == d;
      if opens {
        assert LastOpening(views, n, d) == Some(n - 1);
      } else {
        assert LastOpening(views, n, d) == LastOpening(views, n - 1, d);
      }
    }
  }

  /** What one successful step leaves behind: its own line and indent, and indent d recorded when the line opened it. */
  lemma StepRecords(views: seq<LineView>, i: nat, st: HierState, d: nat)
    requires 1 <= i < |views| && |st.nodes| == i - 1 && Consistent(st) && Step(views, i, st).Ok?
    ensures var r := Step(views, i, st).value;
      var opens := views[i].indent > st.prevIndent && views[i].indent == d;
      && r.prevNode == i && r.prevIndent == views[i].indent
      && (d in r.prevParents <==> opens || d in st.prevParents)
      && (d in r.prevParents ==> r.prevParents[d] == if opens then st.prevNode else st.prevParents[d])
  {
  }

  /**
   * The parent of every line: the previous line when the line opens a deeper level, else the
   * node before the last line that opened a level at the same indent.
   */
  lemma {:induction false} ParentOfLine(views: seq<LineView>, n: nat, i: nat)
    requires 1 <= n <= |views| && Run(views, n).Ok?
    requires 1 <= i < n
    ensures var nodes := Run(views, n).value.nodes;
      if Deeper(views, i) then nodes[i - 1].parent == i - 1
      else LastOpening(views, i, views[i].indent).Some?
           && nodes[i - 1].parent == LastOpening(views, i, views[i].indent).value - 1
  {
    var st := Run(views, n - 1).value;
    StepNext(views, n - 1, st);
    var nodes := Run(views, n).value.nodes;
    if i < n - 1 {
      ParentOfLine(views, n - 1, i);
      assert nodes[..n - 2] == st.nodes;
      assert nodes[i - 1] == st.nodes[i - 1];
    } else {
      RunState(views, n - 1, views[i].indent);
      if i == 1 {
        assert st.prevIndent == -1;
      } else {
        assert st.prevIndent == views[i - 1].indent;
      }
    }
  }

  /** A KeyError is raised at the first line whose smaller or equal indent no earlier line opened. */
  lemma {:induction false} KeyErrorAtUnopenedIndent(views: seq<LineView>, n: nat, i: nat, d: nat)
    requires 1 <= n <= |views| && Run(views, n) == Err(KeyError(i, d))
    ensures 1 <= i < n && d == views[i].indent && !Deeper(views, i) && LastOpening(views, i, d).None?
    ensures Run(views, i).Ok?
  {
    assert n > 1;
    if Run(views, n - 1).Err? {
      KeyErrorAtUnopenedIndent(views, n - 1, i, d);
    } else {
      var st := Run(views, n - 1).value;
      StepKeyError(views, n - 1, st, i, d);
      RunState(views, n - 1, d);
      RunPrev(views, n - 1);
      assert i == n - 1 && st.prevIndent == if i == 1 then -1 else views[i - 1].indent;
      assert i != 1;
      assert !Deeper(views, i);
    }
  }

  /** The state after line n - 1 has that line as its previous node and its indent as the previous indent. */
  lemma RunPrev(views: seq<LineView>, n: nat)
    requires 1 <= n <= |views| && Run(views, n).Ok?
    ensures Run(views, n).value.prevNode == n - 1
    ensures Run(views, n).value.prevIndent == if n == 1 then -1 else views[n - 1].indent
  {
    if n > 1 {
      assert Run(views, n) == Step(views, n - 1, Run(views, n - 1).value);
    }
  }

  /** The only KeyError a step raises is at its own line, for its indent, not deeper and not recorded. */
  lemma StepKeyError(views: seq<LineView>, i: nat, st: HierState, j: nat, d: nat)
    requires 1 <= i < |views| && |st.nodes| == i - 1 && Consistent(st)
    requires Step(views, i, st) == Err(KeyError(j, d))
    ensures j == i && d == views[i].indent && !(d > st.prevIndent) && d !in st.prevParents
  {
  }

  /** Each line after the first gets exactly one node, whose parent is made before it. */
  lemma OneNodePerLine(views: seq<LineView>)
    requires |views| >= 1 && Hier(views).Ok?
    ensures |Hier(views).value| == |views| - 1
    ensures forall j :: 0 <= j < |views| - 1 ==> Hier(views).value[j].parent <= j
  {
    RunParentsBefore(views, |views|);
  }

  /** A step makes the node of its line with the root or an earlier node as parent. */
  lemma StepParentsBefore(views: seq<LineView>, i: nat, st: HierState)
    requires 1 <= i < |views| && |st.nodes| == i - 1 && Consistent(st) && ParentsBefore(st.nodes)
    requires Step(views, i, st).Ok?
    ensures ParentsBefore(Step(views, i, st).value.nodes)
  {
    var nodes := Step(views, i, st).value.nodes;
    assert nodes[..i - 1] == st.nodes;
    forall j | 0 <= j < |nodes|
      ensures nodes[j].parent <= j
    {
      if j < i - 1 {
        assert nodes[j] == st.nodes[j];
      }
    }
  }

  /** Every state of the run has its parents before its nodes. */
  lemma {:induction false} RunParentsBefore(views: seq<LineView>, n: nat)
    requires 1 <= n <= |views| && Run(views, n).Ok?
    ensures ParentsBefore(Run(views, n).value.nodes)
  {
    if n > 1 {
      RunParentsBefore(views, n - 1);
      StepParentsBefore(views, n - 1, Run(views, n - 1).value);
    }
  }

  /** Node k is a kid of p exactly when it was made with parent p; the kids are in line order. */
  lemma {:induction false} KidsAreTheNodesWithThatParent(nodes: seq<LineNode>, p: nat)
    ensures forall k :: k in Kids(nodes, p) <==> 1 <= k <= |nodes| && nodes[k - 1].parent == p
    ensures forall a, b :: 0 <= a < b < |Kids(nodes, p)| ==> Kids(nodes, p)[a] < Kids(nodes, p)[b]
  {
    if |nodes| > 0 {
      var n := |nodes| - 1;
      KidsAreTheNodesWithThatParent(nodes[..n], p);
    }
  }

  /** No node has a kid made before it. */
  lemma {:induction false} NoKidsYet(nodes: seq<LineNode>, p: nat)
    requires ParentsBefore(nodes)
    requires p >= |nodes|
    ensures Kids(nodes, p) == []
  {
    if |nodes| > 0 {
      NoKidsYet(nodes[..|nodes| - 1], p);
    }
  }

  /**
   * The tree made so far mirrors the nodes of the lines: made[0] is the root and made[i] the
   * node of line i, with its key and kwargs, no parent, and as kids the nodes whose parent it is,
   * in line order.
   */
  ghost predicate Mirrors(made: seq<Node>, nodes: seq<LineNode>)
    reads made
  {
    NodesMirror(made, nodes) && KidsMirror(made, nodes)
  }

  /**
   * made[i] is the node of line i: no parent, its kwargs, and as key parse_key of its token under
   * the key of the node made for its parent.
   */
  ghost predicate NodesMirror(made: seq<Node>, nodes: seq<LineNode>)
    reads made`key, made`kwargs, made`parent
  {
    && |made| == |nodes| + 1 && ParentsBefore(nodes)
    && (forall i :: 0 <= i < |made| ==> made[i].parent == null)
    && (forall i {:trigger nodes[i]} :: 0 <= i < |nodes| ==>
          made[i + 1].key == ParseKey(nodes[i].token, made[nodes[i].parent].key) && made[i + 1].kwargs == nodes[i].kwargs)
  }

  /** With the root's key "", the key of every node made is the key KeyAt gives its node. */
  lemma {:induction false} MirroredKeys(made: seq<Node>, nodes: seq<LineNode>, p: nat)
    requires NodesMirror(made, nodes) && made[0].key == "" && p <= |nodes|
    ensures made[p].key == KeyAt(nodes, p)
    decreases p
  {
    if p > 0 {
      assert nodes[p - 1] == nodes[p - 1];
      MirroredKeys(made, nodes, nodes[p - 1].parent);
    }
  }

  /** made[p] has as kids the nodes whose parent is p, in line order. */
  ghost predicate KidsMirror(made: seq<Node>, nodes: seq<LineNode>)
    reads made
  {
    |made| == |nodes| + 1
    && forall p {:trigger made[p].kids} :: 0 <= p < |made| ==> made[p].kids == NodesAt(made, Kids(nodes, p))
  }

  /** The node of the next line, with its key under its parent's and its kwargs, extends the mirror. */
  lemma NodesMirrorAppend(made: seq<Node>, nodes: seq<LineNode>, node: Node, ln: LineNode)
    requires NodesMirror(made, nodes) && ln.parent <= |nodes|
    requires node.parent == null && node.kwargs == ln.kwargs && node.key == ParseKey(ln.token, made[ln.parent].key)
    ensures NodesMirror(made + [node], nodes + [ln])
  {
    var nodes' := nodes + [ln];
    var made' := made + [node];
    assert ParentsBefore(nodes') by {
      forall j | 0 <= j < |nodes'|
        ensures nodes'[j].parent <= j
      {
        if j < |nodes| {
          assert nodes'[j] == nodes[j];
        }
      }
    }
    forall i | 0 <= i < |nodes'|
      ensures made'[i + 1].key == ParseKey(nodes'[i].token, made'[nodes'[i].parent].key) && made'[i + 1].kwargs == nodes'[i].kwargs
    {
      if i < |nodes| {
        assert made'[i + 1] == made[i + 1] && nodes'[i] == nodes[i];
        assert made'[nodes[i].parent] == made[nodes[i].parent];
      } else {
        assert made'[i + 1] == node && nodes'[i] == ln && made'[ln.parent] == made[ln.parent];
      }
    }
    assert forall i :: 0 <= i < |made'| ==> made'[i].parent == null;
  }

  /** The nodes at the given indices of made. */
  function NodesAt(made: seq<Node>, ks: seq<nat>): (r: seq<Node>)
    requires forall k :: 0 <= k < |ks| ==> ks[k] < |made|
    ensures |r| == |ks| && forall k {:trigger r[k]} :: 0 <= k < |ks| ==> r[k] == made[ks[k]]
  {
    seq(|ks|, k requires 0 <= k < |ks| => made[ks[k]])
  }

  /** parent.kids.append(node) for the node of the next line, keeping the tree a mirror of the nodes. */
  method AddKid(ghost made: seq<Node>, ghost index: map<Node, nat>, ghost nodes: seq<LineNode>,
                parent: Node, ghost parentIdx: nat, node: Node, ghost ln: LineNode)
    requires Mirrors(made, nodes)
    requires forall i :: 0 <= i < |made| ==> made[i] in index && index[made[i]] == i
    requires parentIdx < |made| && parent == made[parentIdx] && node !in made && ln.parent == parentIdx
    requires node.kids == [] && node.parent == null && node.kwargs == ln.kwargs
    requires node.key == ParseKey(ln.token, parent.key)
    modifies parent
    ensures Mirrors(made + [node], nodes + [ln])
    ensures parent.key == old(parent.key) && parent.kwargs == old(parent.kwargs) && parent.parent == null
  {
    NodesMirrorAppend(made, nodes, node, ln);
    parent.kids := parent.kids + [node];
    var nodes' := nodes + [ln];
    var made' := made + [node];
    forall p | 0 <= p < |made'|
      ensures made'[p].kids == NodesAt(made', Kids(nodes', p))
    {
      KidsAppend(nodes, ln, p);
      if p == |made| {
        NoKidsYet(nodes', |made|);
      } else {
        assert NodesAt(made', Kids(nodes, p)) == NodesAt(made, Kids(nodes, p));
      }
    }
  }

  /** A new node adds itself, at the end, to the kids of its parent and of no other node. */
  lemma KidsAppend(nodes: seq<LineNode>, ln: LineNode, p: nat)
    ensures Kids(nodes + [ln], p) == Kids(nodes, p) + (if ln.parent == p then [|nodes| + 1] else [])
  {
    assert (nodes + [ln])[..|nodes|] == nodes;
  }

  /** The parents recorded per indent are nodes of made, as the state records them. */
  ghost predicate ParentsMirror(prevParents: map<nat, Node>, made: seq<Node>, st: HierState)
  {
    && prevParents.Keys == st.prevParents.Keys
    && forall d :: d in prevParents ==> st.prevParents[d] < |made| && prevParents[d] == made[st.prevParents[d]]
  }

  /**
   * Everything parse relies on between two lines: made mirrors the nodes, the root has key ""
   * and no kwargs, index locates each node of made, and prev_indent, prev_node and
   * prev_parents are those of the state.
   */
  ghost predicate TreeMirrors(made: seq<Node>, index: map<Node, nat>, st: HierState,
                              prevIndent: int, prevNode: Node, prevParents: map<nat, Node>)
    reads made
  {
    && Mirrors(made, st.nodes) && ParentsMirror(prevParents, made, st)
    && made[0].key == "" && made[0].kwargs == map[]
    && (forall i :: 0 <= i < |made| ==> made[i] in index && index[made[i]] == i)
    && prevIndent == st.prevIndent && st.prevNode < |made| && prevNode == made[st.prevNode]
  }

  /** Recording the previous node for a deeper line keeps prev_parents a mirror of the state's. */
  lemma ParentsAfterLine(prevParents: map<nat, Node>, made: seq<Node>, st: HierState, indent: nat,
                         prevNode: Node, n: Node, nodes: seq<LineNode>)
    requires ParentsMirror(prevParents, made, st) && st.prevNode < |made| && prevNode == made[st.prevNode]
    ensures var deeper := indent > st.prevIndent;
      ParentsMirror(if deeper then prevParents[indent := prevNode] else prevParents, made + [n],
                    HierState(indent, |made|, if deeper then st.prevParents[indent := st.prevNode] else st.prevParents, nodes))
  {
  }

  /** Appending a new node at the next index keeps index locating every node of made. */
  lemma IndexAfterLine(made: seq<Node>, index: map<Node, nat>, n: Node)
    requires forall i :: 0 <= i < |made| ==> made[i] in index && index[made[i]] == i
    requires n !in made
    ensures forall i :: 0 <= i < |made| + 1 ==> (made + [n])[i] in index[n := |made|] && index[n := |made|][(made + [n])[i]] == i
  {
  }

  /**
   * The work parse(prev_indent, line_idx, prev_node) does for its own line: the parent is
   * prev_node when the line is deeper, else prev_parents[indent] (KeyError when absent); the new
   * node is parsed against it (IndexError when the line is short), the parent is recorded for
   * the indent when the line is deeper, and the node joins the parent's kids. Returns the new
   * node and prev_parents, as Step describes.
   */
  method ParseLine(lines: seq<string>, ghost views: seq<LineView>, idx: nat, prevIndent: int, prevNode: Node,
                   prevParents: map<nat, Node>, ghost st: HierState, ghost made: seq<Node>, ghost index: map<Node, nat>)
    returns (res: Result<Node, ParseError>, parents: map<nat, Node>)
    requires ViewsOf(views, lines)
    requires 1 <= idx < |views| && |st.nodes| == idx - 1 && Consistent(st)
    requires TreeMirrors(made, index, st, prevIndent, prevNode, prevParents)
    modifies made
    ensures res.Err? <==> Step(views, idx, st).Err?
    ensures res.Err? ==> res.error == Step(views, idx, st).error
    ensures res.Ok? ==> && fresh(res.value)
                        && TreeMirrors(made + [res.value], index[res.value := idx], Step(views, idx, st).value,
                                       Indent(lines[idx]), res.value, parents)
  {
    var line := lines[idx];
    var indent := Indent(line);
    assert views[idx] == View(line);
    parents := prevParents;
    var parent, parentIdx := ChooseParent(indent, prevIndent, prevNode, prevParents, st, made);
    if parent.None? {
      StepKeyErrorAt(views, idx, st);
      return Err(KeyError(idx, indent)), parents;
    }
    var node := ParseNode(LStrip(line), parent.value);
    if node.None? {
      StepIndexErrorAt(views, idx, st);
      return Err(IndexError(idx)), parents;
    }
    var n := node.value;
    ghost var fields := views[idx].fields.value;
    StepOk(views, idx, st, parentIdx, fields);
    parents := Attach(made, index, st, prevIndent, prevNode, prevParents, indent, parent.value, parentIdx, n,
                      LineNode(fields.0, parentIdx, fields.1));
    res := Ok(n);
  }

  /**
   * The rest of parse's work for a line once its node is made: prev_node is recorded for the
   * indent when the line is deeper, and the node joins its parent's kids. The tree then mirrors
   * the state after the line.
   */
  method Attach(ghost made: seq<Node>, ghost index: map<Node, nat>, ghost st: HierState, prevIndent: int,
                prevNode: Node, prevParents: map<nat, Node>, indent: nat, parent: Node, ghost parentIdx: nat,
                n: Node, ghost ln: LineNode)
    returns (parents: map<nat, Node>)
    requires TreeMirrors(made, index, st, prevIndent, prevNode, prevParents)
    requires parentIdx < |made| && parent == made[parentIdx] && n !in made && ln.parent == parentIdx
    requires n.kids == [] && n.parent == null && n.kwargs == ln.kwargs
    requires n.key == ParseKey(ln.token, parent.key)
    modifies parent
    ensures TreeMirrors(made + [n], index[n := |made|],
                        HierState(indent, |made|, if indent > st.prevIndent then st.prevParents[indent := st.prevNode] else st.prevParents,
                                  st.nodes + [ln]),
                        indent, n, parents)
  {
    parents := prevParents;
    if indent > prevIndent {
      parents := parents[indent := prevNode];
    }
    ParentsAfterLine(prevParents, made, st, indent, prevNode, n, st.nodes + [ln]);
    IndexAfterLine(made, index, n);
    AddKid(made, index, st.nodes, parent, parentIdx, n, ln);
  }

  /**
   * The parent parse picks for a line at this indent: prev_node when the line is deeper, else
   * prev_parents[indent], and none (a KeyError) when the indent was never recorded.
   */
  method ChooseParent(indent: nat, prevIndent: int, prevNode: Node, prevParents: map<nat, Node>,
                      ghost st: HierState, ghost made: seq<Node>)
    returns (parent: Option<Node>, ghost parentIdx: nat)
    requires ParentsMirror(prevParents, made, st)
    requires prevIndent == st.prevIndent && st.prevNode < |made| && prevNode == made[st.prevNode]
    ensures parent.None? <==> !(indent > st.prevIndent) && indent !in st.prevParents
    ensures parent.Some? ==> && parentIdx < |made| && parent.value == made[parentIdx]
                             && if indent > st.prevIndent then parentIdx == st.prevNode
                                else indent in st.prevParents && parentIdx == st.prevParents[indent]
  {
    if indent > prevIndent {
      return Some(prevNode), st.prevNode;
    }
    if indent !in prevParents {
      return None, 0;
    }
    return Some(prevParents[indent]), st.prevParents[indent];
  }

  /**
   * parse(prev_indent, line_idx, prev_node): nothing once the lines are exhausted, else the work
   * for line idx and the call for the next line. Success or the error is that of Hier on the
   * views of the lines; on success made grows by the nodes of the remaining lines, all new, into
   * a mirror of Hier.
   */
  method Parse(lines: seq<string>, ghost views: seq<LineView>, idx: nat, prevIndent: int, prevNode: Node,
               prevParents: map<nat, Node>, ghost st: HierState, ghost made: seq<Node>, ghost index: map<Node, nat>)
    returns (r: Result<(), ParseError>, ghost made': seq<Node>)
    requires ViewsOf(views, lines)
    requires 1 <= idx <= (if |views| == 0 then 1 else |views|)
    requires |views| >= 1 ==> Run(views, idx) == Ok(st)
    requires Consistent(st) && |st.nodes| == idx - 1
    requires TreeMirrors(made, index, st, prevIndent, prevNode, prevParents)
    modifies made
    decreases |views| - idx
    ensures r.Err? <==> Hier(views).Err?
    ensures r.Err? ==> r.error == Hier(views).error
    ensures r.Ok? ==> && Mirrors(made', Hier(views).value)
                      && made'[0] == made[0]
                      && made'[0].key == "" && made'[0].kwargs == map[]
                      && forall o :: o in made' ==> o in made || fresh(o)
  {
    if idx >= |lines| {
      if |lines| >= 1 {
        assert idx == |views|;
        HierDone(views, st);
      } else {
        assert st.nodes == [];
      }
      return Ok(()), made;
    }
    StepNext(views, idx, st);
    var res, parents := ParseLine(lines, views, idx, prevIndent, prevNode, prevParents, st, made, index);
    if res.Err? {
      return Err(res.error), made;
    }
    var n := res.value;
    r, made' := Parse(lines, views, idx + 1, Indent(lines[idx]), n, parents, Step(views, idx, st).value, made + [n], index[n := idx]);
  }

  /**
   * parse_tab_hier: parse(-1, 1, root) with the root Node("") and no parents recorded; returns
   * the root. made holds the root and then the node of each line, all new; on success the tree
   * mirrors the nodes of TabHier, and on failure the error is TabHier's.
   */
  method ParseTabHier(lines: seq<string>) returns (r: Result<Node, ParseError>, ghost made: seq<Node>)
    ensures r.Err? <==> TabHier(lines).Err?
    ensures r.Err? ==> r.error == TabHier(lines).error
    ensures r.Ok? ==> && Mirrors(made, TabHier(lines).value)
                      && r.value == made[0] && made[0].key == "" && made[0].kwargs == map[]
                      && (forall o :: o in made ==> fresh(o))
  {
    var root := new Node("", null, []);
    assert MapOf([]) == map[];
    var res;
    res, made := Parse(lines, Views(lines), 1, -1, root, map[], HierState(-1, 0, map[], []), [root], map[root := 0]);
    if res.Err? {
      return Err(res.error), made;
    }
    r := Ok(root);
  }

  /** The next line continues the run; when it raises, so does the whole parse. */
  lemma StepNext(views: seq<LineView>, i: nat, st: HierState)
    requires 1 <= i < |views| && Run(views, i) == Ok(st)
    ensures Run(views, i + 1) == Step(views, i, st)
    ensures Run(views, i + 1).Err? ==> Hier(views) == Err(Run(views, i + 1).error)
  {
    if Run(views, i + 1).Err? {
      ErrorPersists(views, i + 1, |views|);
    }
  }

  /** After the last line the run's nodes are the nodes of TabHier. */
  lemma HierDone(views: seq<LineView>, st: HierState)
    requires |views| >= 1 && Run(views, |views|) == Ok(st)
    ensures Hier(views) == Ok(st.nodes)
  {
  }

  /** Once a line raises, the whole parse raises the same error. */
  lemma {:induction false} ErrorPersists(views: seq<LineView>, n: nat, m: nat)
    requires 1 <= n <= m <= |views| && Run(views, n).Err?
    ensures Run(views, m).Err? && Run(views, m).error == Run(views, n).error
    decreases m - n
  {
    if n < m {
      ErrorPersists(views, n + 1, m);
    }
  }
}
