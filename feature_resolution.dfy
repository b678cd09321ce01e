/**
 * Turning the configured web service feature specifications into
 * `WebServiceFeature` instances (`FeaturePortProvider.convertWebServiceFeature`,
 * JaxWsPortClientInterceptor.java lines 497-517), one entry and a whole list.
 */
module FeatureResolution {
  import opened Wrappers
  import opened JavaModel
  import opened Throwables

  /**
   * A `WebServiceFeature` instance: its class, and which instance it is; an
   * instance made by the default constructor has instance number 0.
   */
  datatype Feature = Feature(className: string, instance: nat)

  /** One entry of the `webServiceFeatures` array, by its runtime type. */
  datatype FeatureSpec =
    | NullSpec
    | FeatureInstance(feature: Feature)
    | ClassSpec(cls: JClass)
    | ClassNameSpec(name: string)
    /** An object of any other type, named by its class. */
    | OtherSpec(typeName: string)

  /** The bean class loader, as the set of classes it can load by name. */
  datatype ClassLoader = ClassLoader(classes: map<string, JClass>)

  /**
   * `BeanUtils.instantiate(c)` followed by the cast to `WebServiceFeature`:
   * an interface or a class without a usable default constructor cannot be
   * instantiated, and an instance of a class that is not a feature fails
   * the cast.
   */
  function InstantiateFeature(c: JClass): Result<Feature, Thrown> {
    if c.isInterface || !c.instantiable then Failure(Thrown(BeanInstantiationException, c.name, None))
    else if !c.isFeature then Failure(Thrown(ClassCastException, c.name, None))
    else Success(Feature(c.name, 0))
  }

  /** A specification that names a class: the class itself, or the name the loader resolves. */
  function NamedClass(loader: ClassLoader, spec: FeatureSpec): Option<JClass> {
    match spec
    case ClassSpec(c) => Some(c)
    case ClassNameSpec(n) => if n in loader.classes then Some(loader.classes[n]) else None
    case _ => None
  }

  /** A class whose default instance is a `WebServiceFeature`. */
  predicate IsFeatureClass(c: JClass) {
    !c.isInterface && c.instantiable && c.isFeature
  }

  /**
   * `convertWebServiceFeature`: a feature instance is used as it is; a class,
   * or a class name the loader resolves, is instantiated with its default
   * constructor. A null entry, an entry of another type and a class name the
   * loader cannot resolve are configuration errors (`IllegalArgumentException`),
   * the last naming the unresolved string; failures of instantiation itself
   * propagate as they are.
   */
  function ConvertFeature(loader: ClassLoader, spec: FeatureSpec): (r: Result<Feature, Thrown>)
    ensures r.Success? <==>
              spec.FeatureInstance? || (NamedClass(loader, spec).Some? && IsFeatureClass(NamedClass(loader, spec).value))
    ensures spec.FeatureInstance? ==> r == Success(spec.feature)
    ensures r.Success? && !spec.FeatureInstance? ==> r.value == Feature(NamedClass(loader, spec).value.name, 0)
    ensures r.Failure? ==>
              (r.error.kind == IllegalArgumentException <==> spec.NullSpec? || spec.OtherSpec? || NamedClass(loader, spec).None?)
    ensures spec.ClassNameSpec? && spec.name !in loader.classes ==>
              r == Failure(Thrown(IllegalArgumentException, spec.name, None))
  {
    match spec
    case NullSpec => Failure(Thrown(IllegalArgumentException, "", None))
    case FeatureInstance(f) => Success(f)
    case ClassSpec(c) => InstantiateFeature(c)
    case ClassNameSpec(n) =>
      if n in loader.classes then InstantiateFeature(loader.classes[n])
      else Failure(Thrown(IllegalArgumentException, n, None))
    case OtherSpec(t) => Failure(Thrown(IllegalArgumentException, t, None))
  }

  /**
   * The whole array converted in order: either one feature per entry, each
   * the conversion of the entry at the same position, or the failure of the
   * first entry that does not convert, with every earlier entry converting.
   */
  function ConvertAll(loader: ClassLoader, specs: seq<FeatureSpec>): (r: Result<seq<Feature>, Thrown>)
    ensures r.Success? <==> forall i :: 0 <= i < |specs| ==> ConvertFeature(loader, specs[i]).Success?
    ensures r.Success? ==>
              |r.value| == |specs|
              && forall i :: 0 <= i < |specs| ==> ConvertFeature(loader, specs[i]) == Success(r.value[i])
    ensures r.Failure? ==>
              exists i :: 0 <= i < |specs| && ConvertFeature(loader, specs[i]) == Failure(r.error)
                && forall j :: 0 <= j < i ==> ConvertFeature(loader, specs[j]).Success?
  {
    if specs == [] then Success([])
    else
      match ConvertFeature(loader, specs[0])
      case Failure(e) => Failure(e)
      case Success(f) =>
        match ConvertAll(loader, specs[1..])
        case Failure(e) =>
          assert forall i :: 1 <= i < |specs| ==> specs[i] == specs[1..][i - 1];
          Failure(e)
        case Success(fs) =>
          assert forall i :: 1 <= i < |specs| ==> specs[i] == specs[1..][i - 1];
          Success([f] + fs)
  }

  /** Converting a concatenation: the first part's failure wins, else the second part's, else both lists joined. */
  lemma {:induction false} ConvertAllAppend(loader: ClassLoader, a: seq<FeatureSpec>, b: seq<FeatureSpec>)
    ensures ConvertAll(loader, a + b) ==
              match ConvertAll(loader, a)
              case Failure(e) => Failure(e)
              case Success(fa) =>
                match ConvertAll(loader, b)
                case Failure(e) => Failure(e)
                case Success(fb) => Success(fa + fb)
  {
    if a != [] {
      assert (a + b)[0] == a[0];
      assert (a + b)[1..] == a[1..] + b;
      ConvertAllAppend(loader, a[1..], b);
      match (ConvertFeature(loader, a[0]), ConvertAll(loader, a[1..]), ConvertAll(loader, b)) {
        case (Success(f), Success(fa), Success(fb)) =>
          assert [f] + (fa + fb) == ([f] + fa) + fb;
        case _ =>
      }
    } else {
      assert a + b == b;
      assert ConvertAll(loader, a) == Success([]);
      if ConvertAll(loader, b).Success? {
        assert [] + ConvertAll(loader, b).value == ConvertAll(loader, b).value;
      }
    }
  }

  /** One more entry converted: a prefix's result extended by the conversion of the next entry. */
  lemma ConvertAllExtend(loader: ClassLoader, specs: seq<FeatureSpec>, i: nat, converted: seq<Feature>)
    requires i < |specs| && ConvertAll(loader, specs[..i]) == Success(converted)
    ensures ConvertFeature(loader, specs[i]).Failure? ==>
              ConvertAll(loader, specs[..i + 1]) == Failure(ConvertFeature(loader, specs[i]).error)
    ensures ConvertFeature(loader, specs[i]).Success? ==>
              ConvertAll(loader, specs[..i + 1]) == Success(converted + [ConvertFeature(loader, specs[i]).value])
  {
    ConvertAllAppend(loader, specs[..i], [specs[i]]);
    assert specs[..i + 1] == specs[..i] + [specs[i]];
    assert [specs[i]][1..] == [];
    var f := ConvertFeature(loader, specs[i]);
    if f.Success? {
      assert ConvertAll(loader, [specs[i]]) == Success([f.value] + []);
      assert [f.value] + [] == [f.value];
    }
  }

  /** A prefix that fails to convert makes the whole array fail with the same error. */
  lemma ConvertAllPrefixFailure(loader: ClassLoader, specs: seq<FeatureSpec>, i: nat)
    requires i <= |specs| && ConvertAll(loader, specs[..i]).Failure?
    ensures ConvertAll(loader, specs) == ConvertAll(loader, specs[..i])
  {
    ConvertAllAppend(loader, specs[..i], specs[i..]);
    assert specs[..i] + specs[i..] == specs;
  }
}
