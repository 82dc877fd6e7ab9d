/**
 * DBFuncExpr as an object: a function applied to a column expression whose
 * SQL template is either given literally or looked up from the driver by
 * phrase id the first time it is needed, and then kept.
 */
module FuncExprs {
  import opened SqlTypes
  import opened Text
  import opened ColumnExprs

  /**
   * The longest prefix of s whose characters are all at or above 'A', the
   * first word of a template such as "ucase(?)" or "coalesce(?, {0})".
   */
  function LeadingRun(s: string): (r: string)
    ensures |r| <= |s| && r == s[..|r|]
    ensures forall k :: 0 <= k < |r| ==> r[k] >= 'A'
    ensures |r| < |s| ==> s[|r|] < 'A'
  {
    if s == [] || s[0] < 'A' then [] else [s[0]] + LeadingRun(s[1..])
  }

  /** The leading run is the only prefix of letters that ends at a lower character or at the end. */
  lemma LeadingRunIsMaximalPrefix(s: string, i: nat)
    requires i <= |s| && (forall k :: 0 <= k < i ==> s[k] >= 'A')
    requires i < |s| ==> s[i] < 'A'
    ensures LeadingRun(s) == s[..i]
  {
  }

  /** A word followed by a character below 'A' is the leading run. */
  lemma {:induction false} LeadingRunStopsAt(word: string, rest: string)
    requires forall k :: 0 <= k < |word| ==> word[k] >= 'A'
    requires |rest| > 0 && rest[0] < 'A'
    ensures LeadingRun(word + rest) == word
    decreases |word|
  {
    if word == [] {
      assert word + rest == rest;
    } else {
      assert (word + rest)[1..] == word[1..] + rest;
      LeadingRunStopsAt(word[1..], rest);
      assert word == [word[0]] + word[1..];
    }
  }

  /** A template with nothing to trim at either end is its own trimmed form. */
  lemma TrimKeepsWord(s: string)
    requires |s| > 0 && !IsTrimmed(s[0]) && !IsTrimmed(s[|s| - 1])
    ensures Trim(s) == s
  {
    assert TrimStart(s) == s;
  }

  /**
   * What getFunctionName returns for a (resolved) template. It is never
   * empty. When the trimmed template starts with a character at or above
   * 'A', it is the template's first word: a prefix of the trimmed template,
   * all of whose characters are at or above 'A', ending where the first
   * lower character stands. Otherwise (no template, or one that starts with
   * a lower character such as the placeholder) it is "func_" and the
   * phrase id.
   */
  function FunctionNameOf(template: Option<string>, phrase: PhraseId): (r: string)
    ensures |r| > 0
    ensures template.Some? && |Trim(template.value)| > 0 && Trim(template.value)[0] >= 'A' ==>
      var s := Trim(template.value);
      |r| <= |s| && r == s[..|r|] && (forall k :: 0 <= k < |r| ==> r[k] >= 'A') && (|r| < |s| ==> s[|r|] < 'A')
    ensures !(template.Some? && |Trim(template.value)| > 0 && Trim(template.value)[0] >= 'A') ==>
      r == "func_" + IntToString(Code(phrase))
  {
    if template.Some? && |LeadingRun(Trim(template.value))| > 0
    then LeadingRun(Trim(template.value))
    else "func_" + IntToString(Code(phrase))
  }

  /** A template that starts with a word names the function by that word. */
  lemma FunctionNameIsLeadingWord(word: string, rest: string, phrase: PhraseId)
    requires |word| > 0 && !IsTrimmed(word[0]) && forall k :: 0 <= k < |word| ==> word[k] >= 'A'
    requires |rest| > 0 && rest[0] < 'A' && !IsTrimmed(rest[|rest| - 1])
    ensures FunctionNameOf(Some(word + rest), phrase) == word
  {
    var t := word + rest;
    assert t[0] == word[0] && t[|t| - 1] == rest[|rest| - 1];
    TrimKeepsWord(t);
    LeadingRunStopsAt(word, rest);
  }

  /** A template that starts with a character below 'A' (such as the placeholder) falls back to "func_" and the id. */
  lemma FunctionNameFallsBack(template: string, phrase: PhraseId)
    requires |template| > 0 && template[0] < 'A'
    requires !IsTrimmed(template[0]) && !IsTrimmed(template[|template| - 1])
    ensures FunctionNameOf(Some(template), phrase) == "func_" + IntToString(Code(phrase))
  {
    TrimKeepsWord(template);
  }

  class FuncExpr {
    const arg: ColumnExpr
    const phrase: PhraseId
    const params: seq<string>
    const updateColumn: Option<ColumnExpr>
    const aggregate: bool
    const funcType: DataType
    /** The template; null until it is taken from the driver. */
    var template: Option<string>

    /** The expression node this object currently stands for. */
    function Node(): (r: ColumnExpr)
      reads this
      ensures r.Func? && r.template == template && r.phrase == phrase && r.arg == arg
    {
      Func(arg, phrase, template, params, updateColumn, aggregate, funcType)
    }

    /** The constructor taking a phrase id: the template is resolved later. */
    constructor FromPhrase(expr: ColumnExpr, phrase: PhraseId, params: seq<string>,
                           updateColumn: Option<ColumnExpr>, isAggregate: bool, dataType: DataType)
      ensures this.arg == expr && this.phrase == phrase && this.params == params
      ensures this.updateColumn == updateColumn && this.aggregate == isAggregate && this.funcType == dataType
      ensures template.None?
    {
      arg := expr;
      this.phrase := phrase;
      this.params := params;
      this.updateColumn := updateColumn;
      aggregate := isAggregate;
      funcType := dataType;
      template := None;
    }

    /** The constructor taking a literal template: the phrase id is 0, LITERAL_TEMPLATE. */
    constructor FromTemplate(expr: ColumnExpr, template: string, params: seq<string>,
                             updateColumn: Option<ColumnExpr>, isAggregate: bool, dataType: DataType)
      ensures this.arg == expr && this.phrase == LITERAL_TEMPLATE && this.params == params
      ensures this.updateColumn == updateColumn && this.aggregate == isAggregate && this.funcType == dataType
      ensures this.template == Some(template)
    {
      arg := expr;
      phrase := LITERAL_TEMPLATE;
      this.params := params;
      this.updateColumn := updateColumn;
      aggregate := isAggregate;
      funcType := dataType;
      this.template := Some(template);
    }

    /**
     * getFunctionName(): resolves the template from the driver when there is
     * none yet and a driver is known, then scans the trimmed template for its
     * first word.
     */
    method FunctionName(driver: Option<Dialect>) returns (name: string)
      modifies this`template
      ensures template == (if old(template).None? && driver.Some? then driver.value.phrase(phrase) else old(template))
      ensures name == FunctionNameOf(template, phrase)
    {
      if template.None? && driver.Some? {
        template := driver.value.phrase(phrase);
      }
      if template.Some? {
        var s := Trim(template.value);
        var i := 0;
        while i < |s| && s[i] >= 'A'
          invariant 0 <= i <= |s|
          invariant forall k :: 0 <= k < i ==> s[k] >= 'A'
        {
          i := i + 1;
        }
        LeadingRunIsMaximalPrefix(s, i);
        if i > 0 {
          name := s[..i];
          return;
        }
      }
      name := "func_" + IntToString(Code(phrase));
    }

    /**
     * addSQL(sql, context): resolves and keeps the template on first use, then
     * appends the substituted template. The text is what the node renders to
     * with the driver it was first rendered with.
     */
    method AddSQL(sql: string, ctx: Context, d: Dialect) returns (r: string)
      modifies this`template
      ensures old(template).Some? ==> template == old(template)
      ensures old(template).None? ==> template == d.phrase(phrase)
      ensures r == sql + Render(Node(), ctx, d)
      ensures r == sql + Render(old(Node()), ctx, d)
    {
      if template.None? {
        template := d.phrase(phrase);
      }
      r := sql + Render(Node(), ctx, d);
    }
  }

  /**
   * Once a function node has been rendered with a driver that has its phrase,
   * its template is fixed: a later render with any other driver substitutes
   * the same template.
   */
  lemma TemplateKeptAfterFirstRender(f: ColumnExpr, d1: Dialect, d2: Dialect)
    requires f.Func? && f.template.None? && d1.phrase(f.phrase).Some?
    ensures var cached := f.(template := d1.phrase(f.phrase));
      FuncTemplate(cached, d2) == FuncTemplate(f, d1) == d1.phrase(f.phrase).value
  {
  }
}
