/** Symbols of anonymous nodes: assigned once, never changed, never shared. */
module Symbols {
  import opened Wrappers
  import opened Recipes

  type NodePath = seq<string>

  /** Five hex characters, read as a number, and the suffix that tells collisions apart
      (0 for none). */
  datatype Symbol = Symbol(base: nat, suffix: nat)

  datatype Source = Node(path: NodePath) | Anonymous(symbol: Symbol)

  /** One anonymous link as recorded when its edge was added. */
  datatype Recipe = Recipe(source: Source, celltype: Celltype, path: Path)

  type Table = map<Recipe, Symbol>

  ghost predicate Injective(table: Table) {
    forall r, r' :: r in table && r' in table && table[r] == table[r'] ==> r == r'
  }

  /** `chain` records `links` read from the node at `root`: each link reads the one before. */
  ghost predicate Records(table: Table, root: NodePath, links: seq<Link>, chain: seq<Recipe>) {
    |chain| == |links| &&
    forall i :: 0 <= i < |chain| ==>
      && chain[i] in table
      && chain[i].celltype == links[i].celltype && chain[i].path == links[i].path
      && (i == 0 ==> chain[i].source == Node(root))
      && (i > 0 ==> chain[i - 1] in table && chain[i].source == Anonymous(table[chain[i - 1]]))
  }

  ghost predicate Extends(before: Table, after: Table) {
    forall r :: r in before ==> r in after && after[r] == before[r]
  }

  lemma RecordsSnoc(before: Table, after: Table, root: NodePath, links: seq<Link>, i: nat, chain: seq<Recipe>,
      recipe: Recipe)
    requires i < |links| && Records(before, root, links[..i], chain)
    requires Extends(before, after) && recipe in after
    requires recipe.celltype == links[i].celltype && recipe.path == links[i].path
    requires recipe.source == if i == 0 then Node(root) else Anonymous(before[chain[i - 1]])
    ensures Records(after, root, links[..i + 1], chain + [recipe])
  {
    var all := chain + [recipe];
    forall j | 0 <= j < |all|
      ensures && all[j] in after && all[j].celltype == links[..i + 1][j].celltype
        && all[j].path == links[..i + 1][j].path
              && (j == 0 ==> all[j].source == Node(root))
              && (j > 0 ==> all[j - 1] in after && all[j].source == Anonymous(after[all[j - 1]]))
    {
      assert j < i ==> links[..i + 1][j] == links[..i][j] && all[j] == chain[j];
    }
  }

  function Suffixed(base: nat, count: nat): set<Symbol> {
    set k | 0 <= k < count :: Symbol(base, k)
  }

  lemma {:induction false} SuffixedSize(base: nat, count: nat)
    ensures |Suffixed(base, count)| == count
  {
    if count > 0 {
      SuffixedSize(base, count - 1);
      assert Suffixed(base, count) == Suffixed(base, count - 1) + {Symbol(base, count - 1)};
    }
  }

  lemma UsedUp(base: nat, count: nat, used: set<Symbol>)
    requires Suffixed(base, count) <= used
    ensures count <= |used|
  {
    SuffixedSize(base, count);
    SubsetSize(Suffixed(base, count), used);
  }

  method FirstFree(base: nat, used: set<Symbol>) returns (symbol: Symbol)
    ensures symbol.base == base && symbol !in used
    ensures forall k: nat :: k < symbol.suffix ==> Symbol(base, k) in used
  {
    symbol := Symbol(base, 0);
    var suffix := 1;
    while symbol in used
      invariant suffix >= 1 && symbol == Symbol(base, suffix - 1)
      invariant Suffixed(base, suffix - 1) <= used
      decreases |used| + 1 - suffix
    {
      assert Suffixed(base, suffix) == Suffixed(base, suffix - 1) + {symbol};
      UsedUp(base, suffix, used);
      symbol := Symbol(base, suffix);
      suffix := suffix + 1;
    }
    forall k: nat | k < symbol.suffix ensures Symbol(base, k) in used {
      assert Symbol(base, k) in Suffixed(base, symbol.suffix);
    }
  }

  class SymbolTable {
    const base: Recipe -> nat
    var symbols: Table

    ghost predicate Valid() reads this { Injective(symbols) }

    constructor (base: Recipe -> nat)
      ensures Valid() && symbols == map[] && this.base == base
    {
      this.base := base;
      symbols := map[];
    }

    /** The recipe's symbol: the old one if it has one, else its base with the least free suffix. */
    method AssignSymbol(recipe: Recipe) returns (symbol: Symbol)
      requires Valid()
      modifies this
      ensures Valid() && symbols == old(symbols)[recipe := symbol]
      ensures recipe in old(symbols) ==> symbol == old(symbols)[recipe]
      ensures recipe !in old(symbols) ==>
        && symbol.base == base(recipe) && symbol !in old(symbols).Values
        && forall k: nat :: k < symbol.suffix ==> Symbol(symbol.base, k) in old(symbols).Values
    {
      var used := symbols.Values;
      assert forall r :: r in symbols ==> symbols[r] in used;
      if recipe in symbols {
        symbol := symbols[recipe];
      } else {
        symbol := FirstFree(base(recipe), used);
        symbols := symbols[recipe := symbol];
      }
      assert symbols == old(symbols)[recipe := symbol];
    }

    /** Records a chain of links, innermost first, without touching any symbol given before. */
    method AssignChain(root: NodePath, links: seq<Link>) returns (chain: seq<Recipe>)
      requires Valid()
      modifies this
      ensures Valid() && Extends(old(symbols), symbols)
      ensures Records(symbols, root, links, chain)
      ensures forall r :: r in symbols ==> r in old(symbols) || r in chain
    {
      chain := [];
      var source := Node(root);
      for i := 0 to |links|
        invariant Valid() && Extends(old(symbols), symbols)
        invariant Records(symbols, root, links[..i], chain)
        invariant source == if i == 0 then Node(root) else Anonymous(symbols[chain[i - 1]])
        invariant forall r :: r in symbols ==> r in old(symbols) || r in chain
      {
        ghost var before := symbols;
        var recipe := Recipe(source, links[i].celltype, links[i].path);
        var symbol := AssignSymbol(recipe);
        RecordsSnoc(before, symbols, root, links, i, chain, recipe);
        chain := chain + [recipe];
        source := Anonymous(symbol);
      }
      assert links[..|links|] == links;
    }
  }
}
