/** The rules of `reduxPerfPlugin` (packages/vite-plugin/src/index.ts): the
    option defaults, the `resolveId` rewrite of `reselect` imports, the file
    filters of `transform`, and the Babel visitor that gives every
    `const x = createSelector(...)` the name `"x"`. The AST nodes the visitor
    mutates (object expressions and call expressions) are objects; the
    rest of the tree is values. */
module VitePlugin {
  import opened Wrappers
  import opened Strings

  /** `ReduxPerfPluginOptions`; `None` is an omitted (undefined) field. */
  datatype PluginOptions = PluginOptions(rewriteReselect: Option<bool>, corePath: Option<string>)

  datatype Settings = Settings(rewriteReselect: bool, corePath: string)

  const DefaultCorePath: string := "@dynlabs/redux-perf-core"

  /** The destructuring with defaults: each omitted field takes its default. */
  function SettingsOf(options: PluginOptions): (r: Settings)
    ensures options.rewriteReselect.None? ==> r.rewriteReselect
    ensures options.corePath.None? ==> r.corePath == DefaultCorePath
    ensures options.rewriteReselect.Some? ==> r.rewriteReselect == options.rewriteReselect.value
    ensures options.corePath.Some? ==> r.corePath == options.corePath.value
  {
    Settings(options.rewriteReselect.GetOr(true), options.corePath.GetOr(DefaultCorePath))
  }

  /** An importer path that is third-party code or the core package itself. */
  predicate ExcludedImporter(importer: string) {
    Contains(importer, "node_modules") || Contains(importer, "packages/core")
    || Contains(importer, "packages\\core") || Contains(importer, "redux-perf-core")
  }

  /** `resolveId(source, importer)`; `None` is `null`. */
  function ResolveId(settings: Settings, source: string, importer: Option<string>): (r: Option<string>)
    ensures r.Some? <==> settings.rewriteReselect && source == "reselect"
                         && !(importer.Some? && ExcludedImporter(importer.value))
    ensures r.Some? ==> r.value == settings.corePath
  {
    if settings.rewriteReselect && source == "reselect" then
      if importer.Some? && ExcludedImporter(importer.value) then None
      else Some(settings.corePath)
    else None
  }

  /** `includes` is transitive: what contains a string contains its parts. */
  lemma ContainsTransitive(s: string, mid: string, sub: string)
    requires Contains(s, mid) && Contains(mid, sub)
    ensures Contains(s, sub)
  {
    var i := ContainsHasPosition(s, mid);
    var j := ContainsHasPosition(mid, sub);
    forall x | 0 <= x < |sub| ensures s[i + j + x] == sub[x] {
      assert s[i..i + |mid|][j + x] == s[i + j + x];
      assert mid[j..j + |sub|][x] == mid[j + x];
    }
    assert s[i + j..i + j + |sub|] == sub;
    ContainsAt(s, sub, i + j);
  }

  /** With the default settings, no file whose path mentions the default
      core path is ever redirected: the core's own `reselect` import keeps
      pointing at the real library. */
  lemma CoreImportsNotRedirected(importer: string)
    requires Contains(importer, DefaultCorePath)
    ensures ResolveId(SettingsOf(PluginOptions(None, None)), "reselect", Some(importer)) == None
  {
    assert DefaultCorePath[9..24] == "redux-perf-core";
    ContainsAt(DefaultCorePath, "redux-perf-core", 9);
    ContainsTransitive(importer, DefaultCorePath, "redux-perf-core");
  }

  /** Application code, with no importer or outside the excluded places,
      is redirected to the configured path; a Windows path inside the core
      package is not; any other module name is left to Vite. */
  lemma ResolveIdExamples(settings: Settings)
    requires settings.rewriteReselect
    ensures ResolveId(settings, "reselect", None) == Some(settings.corePath)
    ensures ResolveId(settings, "reselect", Some("packages\\core\\src\\selectors.ts")) == None
    ensures ResolveId(settings, "redux", Some("src/store.ts")) == None
    ensures ResolveId(settings.(rewriteReselect := false), "reselect", None) == None
  {
    var win := "packages\\core\\src\\selectors.ts";
    assert win[0..13] == "packages\\core";
    ContainsAt(win, "packages\\core", 0);
  }

  /** With no options, a `reselect` import from application code without an
      importer goes to the default core path; with `rewriteReselect: false`
      nothing is ever redirected, whatever the path. */
  lemma DefaultOptionsRedirect(corePath: Option<string>, source: string, importer: Option<string>)
    ensures ResolveId(SettingsOf(PluginOptions(None, None)), "reselect", None) == Some(DefaultCorePath)
    ensures ResolveId(SettingsOf(PluginOptions(Some(false), corePath)), source, importer) == None
    ensures corePath.Some? ==>
      ResolveId(SettingsOf(PluginOptions(None, corePath)), "reselect", None) == corePath
  {
  }

  /** The extensions `transform` accepts (index.ts:50). */
  predicate HasScriptExtension(id: string) {
    EndsWith(id, ".ts") || EndsWith(id, ".tsx") || EndsWith(id, ".js") || EndsWith(id, ".jsx")
  }

  /** The file filters of `transform`: not under `node_modules`, a
      `.ts`/`.tsx`/`.js`/`.jsx` module, and mentioning `createSelector`.
      A module that passes has an id ending in `s` or `x`. */
  predicate ShouldTransform(code: string, id: string)
    ensures ShouldTransform(code, id) ==> 3 <= |id| && id[|id| - 1] in "sx"
  {
    ScriptExtensionLastChar(id);
    !Contains(id, "node_modules") && HasScriptExtension(id) && Contains(code, "createSelector")
  }

  /** A string shorter than `sub` does not contain it. */
  lemma ShortNeverContains(s: string, sub: string)
    requires |s| < |sub|
    ensures !Contains(s, sub)
  {
    if Contains(s, sub) {
      var i := ContainsHasPosition(s, sub);
    }
  }

  /** Code without `createSelector` is never transformed, whatever the file. */
  lemma NoSelectorNoTransform(code: string, id: string)
    requires !Contains(code, "createSelector")
    ensures !ShouldTransform(code, id)
  {
  }

  /** Nothing under `node_modules` is transformed, whatever the code. */
  lemma NodeModulesNotTransformed(code: string, id: string)
    requires Contains(id, "node_modules")
    ensures !ShouldTransform(code, id)
  {
  }

  /** Outside `node_modules`, a module named `stem` followed by one of the
      four script extensions is transformed iff its code mentions
      `createSelector`. */
  lemma TypeScriptModuleTransformed(code: string, stem: string, ext: string)
    requires ext == ".ts" || ext == ".tsx" || ext == ".js" || ext == ".jsx"
    requires !Contains(stem + ext, "node_modules")
    ensures ShouldTransform(code, stem + ext) <==> Contains(code, "createSelector")
  {
    assert (stem + ext)[|stem + ext| - |ext|..] == ext;
  }

  /** An id whose last character is neither `s` nor `x` (a `.vue` file, an
      id with a `?raw` query) is skipped, whatever the code. */
  lemma OtherModulesSkipped(code: string, id: string)
    requires |id| > 0 && id[|id| - 1] != 's' && id[|id| - 1] != 'x'
    ensures !ShouldTransform(code, id)
  {
  }

  /** `a.ts?raw` and `src/App.vue` are skipped, selector or not. */
  lemma SkippedExamples(code: string)
    ensures !ShouldTransform(code, "a.ts?raw")
    ensures !ShouldTransform(code, "src/App.vue")
  {
    OtherModulesSkipped(code, "a.ts?raw");
    OtherModulesSkipped(code, "src/App.vue");
  }

  /** A Vue script block, whose id ends in the query `lang.ts`, passes the
      extension filter: the check reads the whole id, query included. */
  lemma VueScriptBlockTransformed(code: string, stem: string)
    requires Contains(code, "createSelector")
    requires stem == "src/App.vue?vue&type=script&lang"
    ensures ShouldTransform(code, stem + ".ts")
  {
    assert forall i :: 0 <= i < |stem + ".ts"| ==> (stem + ".ts")[i] != 'd';
    MissingCharNotContained(stem + ".ts", "node_modules", 2);
    TypeScriptModuleTransformed(code, stem, ".ts");
  }

  /** A string lacking one of `sub`'s characters does not contain `sub`. */
  lemma MissingCharNotContained(s: string, sub: string, j: nat)
    requires j < |sub| && forall i :: 0 <= i < |s| ==> s[i] != sub[j]
    ensures !Contains(s, sub)
  {
    if Contains(s, sub) {
      var i := ContainsHasPosition(s, sub);
    }
  }

  /** Each accepted extension ends in `s` or `x`. */
  lemma ScriptExtensionLastChar(id: string)
    ensures HasScriptExtension(id) ==> 3 <= |id| && id[|id| - 1] in "sx"
  {
    forall suffix | suffix in [".ts", ".tsx", ".js", ".jsx"] && EndsWith(id, suffix)
      ensures id[|id| - 1] == suffix[|suffix| - 1]
    {
      assert id[|id| - |suffix|..][|suffix| - 1] == id[|id| - 1];
    }
  }

  // The syntax tree, as far as the visitor looks at it.

  datatype Key = IdentifierKey(name: string) | StringLiteralKey(value: string) | OtherKey

  /** An entry of an object literal; `computed` is `[key]: value`. */
  datatype Property =
    | ObjectProperty(key: Key, computed: bool, value: Expr)
    | ObjectMethod(key: Key)
    | SpreadElement(argument: Expr)

  datatype Expr =
    | Identifier(name: string)
    | StringLiteral(value: string)
    | ObjectExpr(obj: ObjectExpression)
    | CallExpr(call: CallExpression)
    | OtherExpr

  class ObjectExpression {
    var properties: seq<Property>

    constructor (properties: seq<Property>)
      ensures this.properties == properties
    {
      this.properties := properties;
    }
  }

  class CallExpression {
    const callee: Expr
    var arguments: seq<Expr>

    constructor (callee: Expr, arguments: seq<Expr>)
      ensures this.callee == callee && this.arguments == arguments
    {
      this.callee := callee;
      this.arguments := arguments;
    }
  }

  datatype Pattern = IdentifierPattern(name: string) | OtherPattern

  datatype Declarator = Declarator(id: Pattern, init: Option<Expr>)

  /** A property the `some(...)` check counts as a `name`: an object
      property whose key is the identifier `name`, computed or not. */
  predicate IsNameProperty(p: Property) {
    p.ObjectProperty? && p.key.IdentifierKey? && p.key.name == "name"
  }

  predicate HasNameProperty(properties: seq<Property>) {
    exists i :: 0 <= i < |properties| && IsNameProperty(properties[i])
  }

  /** `t.objectProperty(t.identifier('name'), t.stringLiteral(varName))`. */
  function NameProperty(varName: string): (p: Property)
    ensures IsNameProperty(p)
  {
    ObjectProperty(IdentifierKey("name"), false, StringLiteral(varName))
  }

  /** A quoted `'name'` key or a method called `name` is not seen as a
      name, so a `name` property is added next to it. */
  lemma OnlyIdentifierKeysName(varName: string, f: Expr)
    ensures !HasNameProperty([ObjectProperty(StringLiteralKey("name"), false, f)])
    ensures !HasNameProperty([ObjectMethod(IdentifierKey("name"))])
    ensures HasNameProperty([ObjectProperty(IdentifierKey("name"), true, f)])
  {
    assert IsNameProperty([ObjectProperty(IdentifierKey("name"), true, f)][0]);
  }

  /** The declarators the visitor rewrites: `<identifier> = createSelector(...)`. */
  predicate Targets(d: Declarator) {
    d.id.IdentifierPattern? && d.init.Some? && d.init.value.CallExpr?
    && d.init.value.call.callee == Identifier("createSelector")
  }

  /** The last argument's object literal, when the last argument is one. */
  function LastObject(c: CallExpression): Option<ObjectExpression>
    reads c
  {
    if |c.arguments| > 0 && c.arguments[|c.arguments| - 1].ObjectExpr?
    then Some(c.arguments[|c.arguments| - 1].obj) else None
  }

  function LastObjectSet(c: CallExpression): set<object>
    reads c
  {
    if LastObject(c).Some? then {LastObject(c).value} else {}
  }

  /** The call's options object already carries a `name`. */
  predicate LastIsNamed(c: CallExpression)
    reads c, LastObjectSet(c)
  {
    LastObject(c).Some? && HasNameProperty(LastObject(c).value.properties)
  }

  /** What the visitor may change: the call node and its last object. */
  function Footprint(d: Declarator): set<object>
    reads if d.init.Some? && d.init.value.CallExpr? then {d.init.value.call} else {}
  {
    if Targets(d) then {d.init.value.call} + LastObjectSet(d.init.value.call) else {}
  }

  /** The `VariableDeclarator` visitor. On a declarator that is not a
      `createSelector` call it changes nothing. Otherwise, with `args` the
      call's arguments and `x` the declared name:
      - no arguments: nothing changes;
      - the last argument is an object literal: one `name: "x"` property is
        pushed onto it unless it already has a `name`;
      - otherwise a new object literal `{ name: "x" }` is pushed onto `args`.
      After it, a call with arguments ends in a named options object; and
      a call that already did is left exactly as it was, so a second visit
      changes nothing. */
  method VisitVariableDeclarator(d: Declarator)
    modifies Footprint(d)
    ensures Targets(d) ==>
      var c := d.init.value.call;
      var args := old(c.arguments);
      var varName := d.id.name;
      && (|args| == 0 ==> c.arguments == [])
      && (|args| > 0 && args[|args| - 1].ObjectExpr? ==>
            var o := args[|args| - 1].obj;
            && c.arguments == args
            && o.properties == if HasNameProperty(old(o.properties)) then old(o.properties)
                               else old(o.properties) + [NameProperty(varName)])
      && (|args| > 0 && !args[|args| - 1].ObjectExpr? ==>
            && |c.arguments| == |args| + 1 && c.arguments[..|args|] == args
            && c.arguments[|args|].ObjectExpr? && fresh(c.arguments[|args|].obj)
            && c.arguments[|args|].obj.properties == [NameProperty(varName)])
    ensures Targets(d) && |old(d.init.value.call.arguments)| > 0 ==> LastIsNamed(d.init.value.call)
    ensures Targets(d) && old(LastIsNamed(d.init.value.call)) ==>
      && d.init.value.call.arguments == old(d.init.value.call.arguments)
      && LastObject(d.init.value.call).value.properties == old(LastObject(d.init.value.call).value.properties)
  {
    if !Targets(d) {
      return;
    }
    var c := d.init.value.call;
    var varName := d.id.name;
    var args := c.arguments;
    if |args| > 0 && args[|args| - 1].ObjectExpr? {
      var lastArg := args[|args| - 1].obj;
      if !HasNameProperty(lastArg.properties) {
        lastArg.properties := lastArg.properties + [NameProperty(varName)];
        assert IsNameProperty(lastArg.properties[|lastArg.properties| - 1]);
      }
    } else if |args| > 0 {
      var options := new ObjectExpression([NameProperty(varName)]);
      assert IsNameProperty(options.properties[0]);
      c.arguments := args + [ObjectExpr(options)];
    }
  }

  /** `const selectTotal = createSelector(selectItems, combiner)` visited
      twice: the first visit appends `{ name: "selectTotal" }`, the second
      changes nothing. */
  method NamingScenario() returns (before: nat, afterOnce: nat, afterTwice: nat, options: seq<Property>)
    ensures before == 2 && afterOnce == 3 && afterTwice == 3
    ensures options == [NameProperty("selectTotal")]
  {
    var call := new CallExpression(Identifier("createSelector"), [Identifier("selectItems"), OtherExpr]);
    var d := Declarator(IdentifierPattern("selectTotal"), Some(CallExpr(call)));
    before := |call.arguments|;
    VisitVariableDeclarator(d);
    afterOnce := |call.arguments|;
    var o := call.arguments[2].obj;
    VisitVariableDeclarator(d);
    afterTwice := |call.arguments|;
    options := o.properties;
  }
}
