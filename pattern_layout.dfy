/** The orchestration part of logback's pattern layouts (PatternLayoutBase.java):
    the three-layer converter map, start-up from the pattern string, the render
    loop over the singly linked converter chain, and the presentation header.

    A converter is modelled by what it writes for an event (`E -> string`); the
    parser and compiler that turn the pattern into converters are a collaborator
    passed to `Start`. */
module PatternLayout {
  import opened Wrappers
  import opened Status

  /** The concatenation, in chain order, of what each converter writes for `event`. */
  function Render<E>(writers: seq<E -> string>, event: E): string
  {
    if writers == [] then "" else writers[0](event) + Render(writers[1..], event)
  }

  /** Rendering a chain made of two parts writes the first part, then the second;
      this is what an appended converter (a post-compile processor's trailing
      stage) adds to the output. */
  lemma {:induction false} RenderAppend<E>(a: seq<E -> string>, b: seq<E -> string>, event: E)
    ensures Render(a + b, event) == Render(a, event) + Render(b, event)
  {
    if a == [] {
      assert a + b == b;
    } else {
      assert (a + b)[0] == a[0];
      assert (a + b)[1..] == a[1..] + b;
      RenderAppend(a[1..], b, event);
    }
  }

  /** One converter of the chain: what it writes, and the next converter. */
  class Converter<E> {
    const write: E -> string
    var next: Converter?<E>

    ghost var footprint: set<object>
    /** What this converter and its successors write, in chain order. */
    ghost var writers: seq<E -> string>

    ghost predicate Valid()
      reads this, footprint
    {
      && this in footprint
      && (next == null ==> writers == [write])
      && (next != null ==>
            && next in footprint && next.footprint <= footprint && this !in next.footprint
            && writers == [write] + next.writers
            && next.Valid())
    }

    constructor (write: E -> string, next: Converter?<E>)
      requires next != null ==> next.Valid()
      ensures Valid() && this.write == write && this.next == next
      ensures next == null ==> writers == [write] && footprint == {this}
      ensures next != null ==> writers == [write] + next.writers && footprint == {this} + next.footprint
    {
      this.write := write;
      this.next := next;
      if next == null {
        footprint := {this};
        writers := [write];
      } else {
        footprint := {this} + next.footprint;
        writers := [write] + next.writers;
      }
    }
  }

  /** Links converters, in order, into a fresh chain; `null` for no converter. */
  method LinkChain<E>(writers: seq<E -> string>) returns (head: Converter?<E>)
    ensures head == null <==> writers == []
    ensures head != null ==> head.Valid() && head.writers == writers && fresh(head.footprint)
  {
    head := null;
    var i := |writers|;
    while i > 0
      invariant 0 <= i <= |writers|
      invariant head == null <==> i == |writers|
      invariant head != null ==> head.Valid() && head.writers == writers[i..] && fresh(head.footprint)
    {
      i := i - 1;
      head := new Converter(writers[i], head);
      assert writers[i..] == [writers[i]] + writers[i + 1..];
    }
  }

  /** The value the effective converter map gives `key`: the instance entry if
      there is one, otherwise the context registry's, otherwise the default. An
      absent (null) layer has no entries. */
  function Resolve(defaults: Option<map<string, string>>, registry: Option<map<string, string>>,
                   instance: map<string, string>, key: string): Option<string>
  {
    if key in instance then Some(instance[key])
    else if registry.Some? && key in registry.value then Some(registry.value[key])
    else if defaults.Some? && key in defaults.value then Some(defaults.value[key])
    else None
  }

  function Lookup(m: map<string, string>, key: string): Option<string>
  {
    if key in m then Some(m[key]) else None
  }

  lemma LookupDetermines(m: map<string, string>, m': map<string, string>)
    requires forall key :: Lookup(m, key) == Lookup(m', key)
    ensures m == m'
  {
    forall key | key in m ensures key in m' && m[key] == m'[key] {
      assert Lookup(m, key) == Lookup(m', key);
    }
    forall key | key in m' ensures key in m {
      assert Lookup(m, key) == Lookup(m', key);
    }
  }

  /** Map.putAll: entries of `layer` overwrite those of `m`. */
  function PutAll(m: map<string, string>, layer: map<string, string>): map<string, string>
  {
    m + layer
  }

  /** The entries of a layer that may be absent (null). */
  function Entries(layer: Option<map<string, string>>): map<string, string>
  {
    if layer.Some? then layer.value else map[]
  }

  /** The effective map built from the three layers, lowest priority first. */
  function MergeLayers(defaults: Option<map<string, string>>, registry: Option<map<string, string>>,
                       instance: map<string, string>): (m: map<string, string>)
    ensures m.Keys == Entries(defaults).Keys + Entries(registry).Keys + instance.Keys
    ensures forall key :: Lookup(m, key) == Resolve(defaults, registry, instance, key)
  {
    PutAll(PutAll(Entries(defaults), Entries(registry)), instance)
  }

  /** The compiled converters of a pattern (Parser.parse then Parser.compile), or
      the ScanException they throw. */
  datatype ParseFailure = ScanFailure

  class PatternLayoutBase<E> {
    /** The head of the converter chain. */
    var head: Converter?<E>
    /** The pattern set by the configuration; None is a null pattern. */
    var pattern: Option<string>
    var instanceConverterMap: map<string, string>
    var outputPatternAsHeader: bool
    var started: bool
    /** What getDefaultConverterMap returns (abstract in the source). */
    const defaultConverterMap: Option<map<string, string>>
    /** The context's PATTERN_RULE_REGISTRY object; None when there is no context
        or no registry. */
    var contextConverterMap: Option<map<string, string>>
    /** LayoutBase's presentation header, used when the pattern is not output. */
    var presentationHeader: Option<string>
    /** The entries recorded in the status manager. */
    var statuses: seq<Level>

    ghost var chain: seq<E -> string>
    ghost var Repr: set<object>

    ghost predicate Valid()
      reads this, Repr
    {
      && this !in Repr
      && (head == null ==> chain == [])
      && (head != null ==>
            head in Repr && head.footprint <= Repr && head.Valid() && chain == head.writers)
    }

    constructor (defaultConverterMap: Option<map<string, string>>)
      ensures Valid() && fresh(Repr)
      ensures this.defaultConverterMap == defaultConverterMap
      ensures head == null && chain == [] && pattern == None && !started
      ensures instanceConverterMap == map[] && contextConverterMap == None
      ensures !outputPatternAsHeader && presentationHeader == None && statuses == []
    {
      this.defaultConverterMap := defaultConverterMap;
      head := null;
      pattern := None;
      instanceConverterMap := map[];
      outputPatternAsHeader := false;
      started := false;
      contextConverterMap := None;
      presentationHeader := None;
      statuses := [];
      chain := [];
      Repr := {};
    }

    /** getPresentationHeaderPrefix: the empty string in this class. */
    function PresentationHeaderPrefix(): (prefix: string)
      ensures |prefix| == 0
    {
      ""
    }

    /** getEffectiveConverterMap: a fresh map holding the default, registry and
        instance layers, each overriding the ones before it. */
    method GetEffectiveConverterMap() returns (effectiveMap: map<string, string>)
      ensures effectiveMap.Keys
           == Entries(defaultConverterMap).Keys + Entries(contextConverterMap).Keys + instanceConverterMap.Keys
      ensures forall key ::
        Lookup(effectiveMap, key) == Resolve(defaultConverterMap, contextConverterMap, instanceConverterMap, key)
    {
      effectiveMap := map[];
      if defaultConverterMap.Some? {
        effectiveMap := PutAll(effectiveMap, defaultConverterMap.value);
      }
      assert effectiveMap == Entries(defaultConverterMap);
      if contextConverterMap.Some? {
        effectiveMap := PutAll(effectiveMap, contextConverterMap.value);
      }
      assert effectiveMap == PutAll(Entries(defaultConverterMap), Entries(contextConverterMap));
      effectiveMap := PutAll(effectiveMap, instanceConverterMap);
      assert effectiveMap == MergeLayers(defaultConverterMap, contextConverterMap, instanceConverterMap);
    }

    /** start: refuses a null or empty pattern, reports a parse failure, and
        otherwise installs the compiled chain and starts the layout. */
    method Start(compile: (string, map<string, string>) -> Result<seq<E -> string>, ParseFailure>,
                 postCompile: Option<seq<E -> string> -> seq<E -> string>>)
      requires Valid()
      modifies this
      ensures Valid()
      ensures pattern == old(pattern) && instanceConverterMap == old(instanceConverterMap)
      ensures contextConverterMap == old(contextConverterMap) && outputPatternAsHeader == old(outputPatternAsHeader)
      ensures presentationHeader == old(presentationHeader)
      ensures old(pattern) == None || old(pattern) == Some("") ==>
        statuses == old(statuses) + [Error] && started == old(started) && head == old(head) && chain == old(chain)
      ensures old(pattern).Some? && old(pattern) != Some("") ==>
        var compiled := compile(old(pattern).value,
                                MergeLayers(defaultConverterMap, old(contextConverterMap), old(instanceConverterMap)));
        && (compiled.Err? ==>
              statuses == old(statuses) + [Error] && started == old(started) && head == old(head) && chain == old(chain))
        && (compiled.Ok? ==>
              && statuses == old(statuses) && started
              && chain == (if postCompile.Some? then postCompile.value(compiled.value) else compiled.value))
    {
      if pattern.None? || |pattern.value| == 0 {
        statuses := statuses + [Error];
        return;
      }
      var effectiveMap := GetEffectiveConverterMap();
      LookupDetermines(effectiveMap, MergeLayers(defaultConverterMap, contextConverterMap, instanceConverterMap));
      var compiled := compile(pattern.value, effectiveMap);
      if compiled.Err? {
        statuses := statuses + [Error];
        return;
      }
      var writers := compiled.value;
      if postCompile.Some? {
        writers := postCompile.value(writers);
      }
      Install(writers);
    }

    /** The tail of a successful start: the chain becomes `writers` and the
        layout is started. */
    method Install(writers: seq<E -> string>)
      modifies this
      ensures Valid() && started && chain == writers
      ensures pattern == old(pattern) && instanceConverterMap == old(instanceConverterMap)
      ensures contextConverterMap == old(contextConverterMap) && outputPatternAsHeader == old(outputPatternAsHeader)
      ensures presentationHeader == old(presentationHeader) && statuses == old(statuses)
    {
      head := LinkChain(writers);
      chain := writers;
      Repr := if head == null then {} else head.footprint;
      started := true;
    }

    /** writeLoopOnConverters: walks the chain from `head`, appending what each
        converter writes. */
    method WriteLoopOnConverters(event: E) returns (s: string)
      requires Valid()
      ensures s == Render(chain, event)
    {
      var buf := "";
      var c := head;
      while c != null
        invariant c != null ==> c.Valid()
        invariant buf + (if c == null then "" else Render(c.writers, event)) == Render(chain, event)
        decreases if c == null then {} else c.footprint
      {
        assert c.writers[1..] == (if c.next == null then [] else c.next.writers);
        buf := buf + c.write(event);
        c := c.next;
      }
      s := buf;
    }

    /** getPresentationHeader: with outputPatternAsHeader, the prefix followed by
        the pattern (Java prints a null pattern as "null"); otherwise LayoutBase's
        header. */
    function GetPresentationHeader(): (h: Option<string>)
      reads this
      ensures outputPatternAsHeader ==> h.Some? && PresentationHeaderPrefix() <= h.value
      ensures outputPatternAsHeader && pattern.Some? ==> h == Some(pattern.value)
      ensures !outputPatternAsHeader ==> h == presentationHeader
    {
      assert pattern.Some? ==> PresentationHeaderPrefix() + pattern.value == pattern.value;
      if outputPatternAsHeader then
        Some(PresentationHeaderPrefix() + (if pattern.Some? then pattern.value else "null"))
      else presentationHeader
    }

    method SetPattern(pattern: Option<string>)
      modifies this`pattern
      ensures this.pattern == pattern
    {
      this.pattern := pattern;
    }

    method SetOutputPatternAsHeader(outputPatternAsHeader: bool)
      modifies this`outputPatternAsHeader
      ensures this.outputPatternAsHeader == outputPatternAsHeader
    {
      this.outputPatternAsHeader := outputPatternAsHeader;
    }
  }
}
