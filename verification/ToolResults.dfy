/** Retained results and content budgets of `tool_program_results.rs`. */
module ToolResults {
  import opened Collections
  import opened JsonValues
  import ResultPaging

  const TREE_BYTES := 64 * 1024 * 1024
  const CONTENT_BLOCKS := 256
  const CONTENT_BYTES := 32 * 1024 * 1024
  const WORD := 0x1_0000_0000_0000_0000

  // ----- what a result is charged -----

  /** A JSON value with its nodes in order. */
  datatype Value = Scalar | Branch(children: seq<Value>)

  /** `usize::checked_add` */
  function CheckedAdd(a: nat, b: nat): Option<nat> {
    if a + b < WORD then Some(a + b) else None
  }

  /** `value_overhead`, with its checked fold over the children from the left. */
  function ValueOverhead(v: Value): Option<nat> {
    match v
    case Scalar => Some(128)
    case Branch(children) => FoldOverhead(128, children)
  }

  function FoldOverhead(sum: nat, children: seq<Value>): Option<nat>
    decreases children
  {
    if children == [] then Some(sum)
    else
      match ValueOverhead(children[0])
      case None => None
      case Some(o) =>
        match CheckedAdd(sum, o)
        case None => None
        case Some(next) => FoldOverhead(next, children[1..])
  }

  function Nodes(v: Value): nat {
    match v
    case Scalar => 1
    case Branch(children) => 1 + NodesOf(children)
  }

  function NodesOf(children: seq<Value>): nat {
    if children == [] then 0 else Nodes(children[0]) + NodesOf(children[1..])
  }

  /** The overhead is 128 bytes a node, or refused exactly when that does not fit a word. */
  lemma {:induction false} OverheadIsNodes(v: Value)
    ensures ValueOverhead(v) == if 128 * Nodes(v) < WORD then Some(128 * Nodes(v)) else None
  {
    if v.Branch? {
      FoldIsNodes(128, v.children);
    }
  }

  lemma {:induction false} FoldIsNodes(sum: nat, children: seq<Value>)
    requires sum < WORD
    ensures FoldOverhead(sum, children)
            == if sum + 128 * NodesOf(children) < WORD then Some(sum + 128 * NodesOf(children)) else None
    decreases children
  {
    if children != [] {
      OverheadIsNodes(children[0]);
      if sum + 128 * Nodes(children[0]) < WORD {
        FoldIsNodes(sum + 128 * Nodes(children[0]), children[1..]);
      }
    }
  }

  datatype Native = Native(details: Value, blocks: nat)

  /** The charge in checked arithmetic, refused above the quota. */
  function CheckedCharge(native: Native, encoded: nat): Option<nat> {
    if encoded * 2 >= WORD then None
    else
      match CheckedAdd(encoded * 2, 4096)
      case None => None
      case Some(base) =>
        match ValueOverhead(native.details)
        case None => None
        case Some(details) =>
          match CheckedAdd(base, details)
          case None => None
          case Some(sum) =>
            if native.blocks * 256 >= WORD then None
            else
              match CheckedAdd(sum, native.blocks * 256)
              case None => None
              case Some(total) => if total <= TREE_BYTES then Some(total) else None
  }

  function Charge(native: Native, encoded: nat): nat {
    2 * encoded + 4096 + 128 * Nodes(native.details) + 256 * native.blocks
  }

  /** No overflow is mistaken for a small charge. */
  lemma ChargeIsExact(native: Native, encoded: nat)
    ensures CheckedCharge(native, encoded)
            == if Charge(native, encoded) <= TREE_BYTES then Some(Charge(native, encoded)) else None
  {
    OverheadIsNodes(native.details);
  }

  // ----- the quota of an invocation tree -----

  /** A result kept by a program of the tree. */
  datatype Key = Key(program: nat, id: string)

  datatype Retained = Retained(native: Native, isError: bool, encoded: string, charge: nat)

  ghost function Charged(held: map<Key, Retained>): nat {
    if held == map[] then 0 else var k :| k in held; held[k].charge + Charged(held - {k})
  }

  lemma {:induction false} ChargedWithout(held: map<Key, Retained>, k: Key)
    requires k in held
    ensures Charged(held) == held[k].charge + Charged(held - {k})
    decreases |held|
  {
    var j :| j in held && Charged(held) == held[j].charge + Charged(held - {j});
    if j != k {
      Smaller(held, j);
      Smaller(held, k);
      ChargedWithout(held - {j}, k);
      ChargedWithout(held - {k}, j);
      assert held - {j} - {k} == held - {k} - {j};
    }
  }

  lemma Smaller(held: map<Key, Retained>, k: Key)
    requires k in held
    ensures |held - {k}| < |held|
  {
    assert (held - {k}).Keys == held.Keys - {k};
  }

  lemma ChargedWith(held: map<Key, Retained>, k: Key, r: Retained)
    requires k !in held
    ensures Charged(held[k := r]) == Charged(held) + r.charge
  {
    ChargedWithout(held[k := r], k);
    assert held[k := r] - {k} == held;
  }

  function OfProgram(held: map<Key, Retained>, program: nat): set<Key> {
    set k | k in held && k.program == program
  }

  const PER_PROGRAM := 16

  /** The length of an encoded result, in UTF-8. */
  function Bytes(encoded: string): nat {
    |ResultPaging.Encode(encoded)|
  }

  datatype RetainError = QuotaExceeded | TooManyReferences | TreeQuotaExceeded

  datatype Retention = Kept | Refused(error: RetainError)

  class ResultTree {
    var held: map<Key, Retained>
    var free: nat

    /** Charges and free permits are always the whole quota, and no program keeps more than sixteen. */
    ghost predicate Valid()
      reads this
    {
      && Charged(held) + free == TREE_BYTES
      && forall p: nat :: |OfProgram(held, p)| <= PER_PROGRAM
    }

    constructor ()
      ensures Valid() && held == map[]
    {
      held, free := map[], TREE_BYTES;
      new;
      assert forall p: nat :: OfProgram(held, p) == {};
    }

    /** `retain_result`: one per request, so its key is new. */
    method RetainResult(key: Key, native: Native, isError: bool, encoded: string) returns (r: Retention)
      requires Valid() && key !in held
      modifies this
      ensures Valid()
      ensures r.Kept? <==>
                && Charge(native, Bytes(encoded)) <= TREE_BYTES
                && |OfProgram(old(held), key.program)| < PER_PROGRAM
                && Charge(native, Bytes(encoded)) <= old(free)
      ensures r.Kept? ==> held == old(held)[key := Retained(native, isError, encoded, Charge(native, Bytes(encoded)))]
      ensures r.Refused? ==> held == old(held) && free == old(free)
    {
      ChargeIsExact(native, Bytes(encoded));
      var charge := CheckedCharge(native, Bytes(encoded));
      if charge.None? {
        return Refused(QuotaExceeded);
      }
      if |OfProgram(held, key.program)| >= PER_PROGRAM {
        return Refused(TooManyReferences);
      }
      if free < charge.value {
        return Refused(TreeQuotaExceeded);
      }
      var kept := Retained(native, isError, encoded, charge.value);
      ChargedWith(held, key, kept);
      OneMore(held, key, kept);
      held, free := held[key := kept], free - charge.value;
      r := Kept;
    }

    /** `release_result`: only the owning program's own references. */
    method ReleaseResult(key: Key) returns (released: bool)
      requires Valid()
      modifies this
      ensures Valid() && released == (key in old(held))
      ensures held == old(held) - {key}
    {
      if key !in held {
        assert held - {key} == held;
        return false;
      }
      ChargedWithout(held, key);
      OneLess(held, key);
      free := free + held[key].charge;
      held := held - {key};
      released := true;
    }

    /** `finish` clears the store of one program. */
    method ClearProgram(program: nat)
      requires Valid()
      modifies this
      ensures Valid() && held == old(held) - OfProgram(old(held), program)
    {
      var left := OfProgram(held, program);
      while left != {}
        invariant Valid() && left == OfProgram(held, program)
        invariant held == old(held) - (OfProgram(old(held), program) - left) && left <= OfProgram(old(held), program)
        decreases |left|
      {
        var key :| key in left;
        var released := ReleaseResult(key);
        left := left - {key};
      }
    }
  }

  lemma OneMore(held: map<Key, Retained>, key: Key, r: Retained)
    requires key !in held && |OfProgram(held, key.program)| < PER_PROGRAM
    requires forall p: nat :: |OfProgram(held, p)| <= PER_PROGRAM
    ensures var more := held[key := r]; forall p: nat :: |OfProgram(more, p)| <= PER_PROGRAM
  {
    var more := held[key := r];
    forall p: nat ensures |OfProgram(more, p)| <= PER_PROGRAM {
      assert OfProgram(more, p) == OfProgram(held, p) + (if p == key.program then {key} else {});
    }
  }

  lemma OneLess(held: map<Key, Retained>, key: Key)
    requires forall p: nat :: |OfProgram(held, p)| <= PER_PROGRAM
    ensures var less := held - {key}; forall p: nat :: |OfProgram(less, p)| <= PER_PROGRAM
  {
    var less := held - {key};
    forall p: nat ensures |OfProgram(less, p)| <= PER_PROGRAM {
      SubsetSize(OfProgram(less, p), OfProgram(held, p));
    }
  }

  // ----- the content budget -----

  /** A content block, by the chunks its serializer writes. */
  datatype Block = Block(chunks: seq<nat>)

  function Size(chunks: seq<nat>): nat {
    if chunks == [] then 0 else chunks[0] + Size(chunks[1..])
  }

  function Sizes(blocks: seq<Block>): nat {
    if blocks == [] then 0 else Sizes(blocks[..|blocks| - 1]) + Size(blocks[|blocks| - 1].chunks)
  }

  /** The blocks as a JSON array: two brackets, and a comma between each two. */
  function Serialized(blocks: seq<Block>): nat {
    2 + Sizes(blocks) + if blocks == [] then 0 else |blocks| - 1
  }

  predicate Fits(blocks: seq<Block>) {
    |blocks| <= CONTENT_BLOCKS && Serialized(blocks) <= CONTENT_BYTES
  }

  /** Once content does not fit, nothing added makes it fit. */
  lemma {:induction false} FitsIsPrefixClosed(blocks: seq<Block>, more: seq<Block>)
    requires Fits(blocks + more)
    ensures Fits(blocks)
  {
    if more == [] {
      assert blocks + more == blocks;
    } else {
      var all := blocks + more;
      assert all[..|all| - 1] == blocks + more[..|more| - 1];
      FitsIsPrefixClosed(blocks, more[..|more| - 1]);
    }
  }

  /** `ContentBudget` with the blocks it has let through. */
  class ContentBudget {
    var blocks: nat
    var encodedBytes: nat
    ghost var accepted: seq<Block>

    ghost predicate Valid()
      reads this
    {
      blocks == |accepted| && encodedBytes == Sizes(accepted) && Fits(accepted)
    }

    constructor ()
      ensures Valid() && accepted == []
    {
      blocks, encodedBytes, accepted := 0, 0, [];
    }

    /** Accepted exactly when the array with this block still fits. */
    method AddBlock(block: Block) returns (ok: bool)
      requires Valid()
      modifies this
      ensures Valid() && ok == Fits(old(accepted) + [block])
      ensures accepted == if ok then old(accepted) + [block] else old(accepted)
    {
      assert (accepted + [block])[..|accepted|] == accepted;
      if blocks == CONTENT_BLOCKS {
        return false;
      }
      if encodedBytes + blocks + 2 > CONTENT_BYTES {
        return false;
      }
      var written := CountBytes(block.chunks, CONTENT_BYTES - (encodedBytes + blocks + 2));
      if written.None? {
        return false;
      }
      encodedBytes := encodedBytes + written.value;
      blocks := blocks + 1;
      accepted := accepted + [block];
      ok := true;
    }
  }

  /** `ByteCounter`: stops at the first chunk that no longer fits. */
  method CountBytes(chunks: seq<nat>, limit: nat) returns (written: Option<nat>)
    ensures written == if Size(chunks) <= limit then Some(Size(chunks)) else None
  {
    var bytes, remaining := 0, limit;
    assert chunks[0..] == chunks;
    for i := 0 to |chunks|
      invariant remaining >= 0 && bytes + remaining == limit && bytes + Size(chunks[i..]) == Size(chunks)
    {
      assert chunks[i..][1..] == chunks[i + 1..];
      if chunks[i] > remaining {
        return None;
      }
      bytes, remaining := bytes + chunks[i], remaining - chunks[i];
    }
    written := Some(bytes);
  }

  // ----- composing content -----

  datatype Part = Inline(blocks: seq<Block>) | Reference(id: string, indices: Option<seq<nat>>)

  datatype ContentError = Inactive | Invalid

  /** The blocks a selection names, if they all exist. */
  function Selected(blocks: seq<Block>, indices: Option<seq<nat>>): Option<seq<Block>> {
    if indices.None? then Some(blocks)
    else if exists i | 0 <= i < |indices.value| :: indices.value[i] >= |blocks| then None
    else Some(Pick(blocks, indices.value))
  }

  function Pick(blocks: seq<Block>, indices: seq<nat>): seq<Block>
    requires forall i | 0 <= i < |indices| :: indices[i] < |blocks|
  {
    seq(|indices|, i requires 0 <= i < |indices| => blocks[indices[i]])
  }

  function Expanded(store: map<string, seq<Block>>, part: Part): Option<seq<Block>> {
    match part
    case Inline(blocks) => Some(blocks)
    case Reference(id, indices) => if id in store then Selected(store[id], indices) else None
  }

  function Composed(store: map<string, seq<Block>>, parts: seq<Part>): Option<seq<Block>> {
    if parts == [] then Some([])
    else
      match (Composed(store, parts[..|parts| - 1]), Expanded(store, parts[|parts| - 1]))
      case (Some(content), Some(more)) => Some(content + more)
      case _ => None
  }

  lemma {:induction false} ComposedPrefix(store: map<string, seq<Block>>, parts: seq<Part>, i: nat)
    requires i <= |parts| && Composed(store, parts).Some?
    ensures Composed(store, parts[..i]).Some?
    ensures Composed(store, parts[..i]).value <= Composed(store, parts).value
  {
    if i == |parts| {
      assert parts[..i] == parts;
    } else {
      assert parts[..|parts| - 1][..i] == parts[..i];
      ComposedPrefix(store, parts[..|parts| - 1], i);
    }
  }

  /** `block` is number `k` of what a part stands for: of its own blocks, of all retained ones, or of those it
      selects. */
  predicate StandsFor(store: map<string, seq<Block>>, part: Part, k: nat, block: Block) {
    match part
    case Inline(blocks) => k < |blocks| && block == blocks[k]
    case Reference(id, indices) =>
      && id in store
      && match indices
         case None => k < |store[id]| && block == store[id][k]
         case Some(picks) => k < |picks| && picks[k] < |store[id]| && block == store[id][picks[k]]
  }

  /** How many blocks a part stands for, if it does. */
  function Count(store: map<string, seq<Block>>, part: Part): Option<nat> {
    match part
    case Inline(blocks) => Some(|blocks|)
    case Reference(id, indices) =>
      if id !in store then None
      else if indices.None? then Some(|store[id]|)
      else if forall i | i in indices.value :: i < |store[id]| then Some(|indices.value|)
      else None
  }

  /** Content is composed exactly when every part stands for something. */
  lemma {:induction false} ComposedIff(store: map<string, seq<Block>>, parts: seq<Part>)
    ensures Composed(store, parts).Some? <==> forall part | part in parts :: Count(store, part).Some?
    decreases |parts|
  {
    if parts != [] {
      var rest, last := parts[..|parts| - 1], parts[|parts| - 1];
      assert parts == rest + [last];
      ComposedIff(store, rest);
      ExpandedCount(store, last);
    }
  }

  lemma ExpandedCount(store: map<string, seq<Block>>, part: Part)
    ensures Count(store, part).Some? <==> Expanded(store, part).Some?
    ensures Expanded(store, part).Some? ==>
              && |Expanded(store, part).value| == Count(store, part).value
              && forall k: nat | k < |Expanded(store, part).value| ::
                   StandsFor(store, part, k, Expanded(store, part).value[k])
  {
    if part.Reference? && part.id in store && part.indices.Some? {
      assert forall i | 0 <= i < |part.indices.value| :: part.indices.value[i] in part.indices.value;
    }
  }

  /** Where the blocks of part `n` begin. */
  function Before(store: map<string, seq<Block>>, parts: seq<Part>, n: nat): nat
    requires n <= |parts|
  {
    if n == 0 then 0
    else
      Before(store, parts, n - 1)
      + match Count(store, parts[n - 1]) case Some(c) => c case None => 0
  }

  /** And then it is what the parts stand for, part after part and block after block. */
  lemma ComposedHas(store: map<string, seq<Block>>, parts: seq<Part>, n: nat, k: nat)
    requires Composed(store, parts).Some? && n < |parts|
    requires Count(store, parts[n]).Some? && k < Count(store, parts[n]).value
    ensures |Composed(store, parts).value| == Before(store, parts, |parts|)
    ensures Before(store, parts, n) + k < |Composed(store, parts).value|
    ensures StandsFor(store, parts[n], k, Composed(store, parts).value[Before(store, parts, n) + k])
  {
    assert parts[..|parts|] == parts;
    ComposedLength(store, parts, |parts|);
    ComposedPrefix(store, parts, n);
    ComposedPrefix(store, parts, n + 1);
    ComposedLength(store, parts, n);
    LastPart(store, parts[..n + 1], k);
    assert parts[..n + 1][..n] == parts[..n];
  }

  lemma LastPart(store: map<string, seq<Block>>, parts: seq<Part>, k: nat)
    requires parts != [] && Composed(store, parts).Some?
    requires Count(store, parts[|parts| - 1]).Some? && k < Count(store, parts[|parts| - 1]).value
    ensures Composed(store, parts[..|parts| - 1]).Some?
    ensures var at := |Composed(store, parts[..|parts| - 1]).value| + k;
            at < |Composed(store, parts).value|
            && StandsFor(store, parts[|parts| - 1], k, Composed(store, parts).value[at])
  {
    ExpandedCount(store, parts[|parts| - 1]);
  }

  lemma {:induction false} ComposedLength(store: map<string, seq<Block>>, parts: seq<Part>, n: nat)
    requires n <= |parts| && Composed(store, parts[..n]).Some?
    ensures |Composed(store, parts[..n]).value| == Before(store, parts, n)
    decreases n
  {
    if n > 0 {
      assert parts[..n][..n - 1] == parts[..n - 1];
      ComposedLength(store, parts, n - 1);
      ExpandedCount(store, parts[n - 1]);
    }
  }

  /** Adds blocks one at a time; the invocation may become inactive before any of them. */
  method AddAll(budget: ContentBudget, more: seq<Block>) returns (error: Option<ContentError>)
    requires budget.Valid()
    modifies budget
    ensures budget.Valid()
    ensures error.None? ==> budget.accepted == old(budget.accepted) + more
    ensures error == Some(Invalid) ==> !Fits(old(budget.accepted) + more)
  {
    for i := 0 to |more|
      invariant budget.Valid() && budget.accepted == old(budget.accepted) + more[..i]
    {
      var cancelled: bool := *;
      if cancelled {
        return Some(Inactive);
      }
      ghost var before := budget.accepted;
      assert before + [more[i]] == old(budget.accepted) + more[..i + 1];
      var ok := budget.AddBlock(more[i]);
      if !ok {
        if Fits(old(budget.accepted) + more) {
          assert old(budget.accepted) + more == (before + [more[i]]) + more[i + 1..];
          FitsIsPrefixClosed(before + [more[i]], more[i + 1..]);
        }
        return Some(Invalid);
      }
    }
    error := None;
  }

  /** `resolve_content_parts`: the blocks of every part in order, or a refusal exactly when there are too many
      parts, one does not resolve, or the whole does not fit; unless the invocation has become inactive. */
  method ResolveContentParts(store: map<string, seq<Block>>, parts: seq<Part>)
    returns (content: seq<Block>, error: Option<ContentError>)
    ensures error.None? ==> Composed(store, parts) == Some(content) && Fits(content) && |parts| <= CONTENT_BLOCKS
    ensures error == Some(Invalid) ==>
              |parts| > CONTENT_BLOCKS || Composed(store, parts).None? || !Fits(Composed(store, parts).value)
  {
    content := [];
    if |parts| > CONTENT_BLOCKS {
      return content, Some(Invalid);
    }
    var budget := new ContentBudget();
    for i := 0 to |parts|
      invariant fresh(budget) && budget.Valid()
      invariant Composed(store, parts[..i]) == Some(content) && content == budget.accepted
    {
      assert parts[..i + 1][..i] == parts[..i];
      var more := Expanded(store, parts[i]);
      if more.None? {
        if Composed(store, parts).Some? {
          ComposedPrefix(store, parts, i + 1);
        }
        return content, Some(Invalid);
      }
      error := AddAll(budget, more.value);
      if error.Some? {
        if error.value.Invalid? && Composed(store, parts).Some? {
          ComposedPrefix(store, parts, i + 1);
          PrefixFits(content + more.value, Composed(store, parts).value);
        }
        return content, error;
      }
      content := content + more.value;
    }
    assert parts[..|parts|] == parts;
    var cancelled: bool := *;
    error := if cancelled then Some(Inactive) else None;
  }

  lemma PrefixFits(blocks: seq<Block>, longer: seq<Block>)
    requires blocks <= longer
    ensures Fits(longer) ==> Fits(blocks)
  {
    if Fits(longer) {
      assert blocks + longer[|blocks|..] == longer;
      FitsIsPrefixClosed(blocks, longer[|blocks|..]);
    }
  }
}
