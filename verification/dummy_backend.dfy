/**
 * DummyPhonebook: the example backend. It keeps the engine and the JSON
 * configuration it was built with, echoes that configuration back, adds
 * two integers, and reports a successful teardown.
 */
module DummyBackend {
  import opened Envelope
  import opened Json
  import opened Transport

  datatype DummyPhonebook = DummyPhonebook(engine: Engine, config: Json)

  /** `DummyPhonebook::getConfig`: the dump of the stored configuration. */
  function GetConfig(d: DummyPhonebook): (t: Text)
    ensures Parse(t) == Some(d.config)
  {
    Dump(d.config)
  }

  /**
   * `DummyPhonebook::computeSum`. Only the value slot is written, so the
   * success flag keeps its default. The caller must keep the sum inside
   * int32: C++ signed overflow is undefined.
   */
  function ComputeSum(d: DummyPhonebook, x: int32, y: int32): (r: Result<int32>)
    requires InInt32(x as int + y as int)
    ensures r.success && r.error == ""
    ensures r.value.Some? && r.value.value as int == x as int + y as int
  {
    var sum := (x as int + y as int) as int32;
    DefaultResult().(value := Some(sum))
  }

  /** `DummyPhonebook::destroy` */
  function Destroy(d: DummyPhonebook): (r: Result<bool>)
    ensures r.success && r.value == Some(true)
  {
    DefaultResult().(value := Some(true))
  }

  /** `DummyPhonebook::create` */
  function Create(engine: Engine, config: Json): (d: DummyPhonebook)
    ensures GetConfig(d) == Dump(config)
  {
    DummyPhonebook(engine, config)
  }

  /** `DummyPhonebook::open`: the same construction as `create`. */
  function Open(engine: Engine, config: Json): (d: DummyPhonebook)
    ensures GetConfig(d) == Dump(config)
  {
    DummyPhonebook(engine, config)
  }

  /** The engine a dummy was built with never changes what it computes. */
  lemma EngineIrrelevant(e1: Engine, e2: Engine, config: Json, x: int32, y: int32)
    requires InInt32(x as int + y as int)
    ensures GetConfig(Create(e1, config)) == GetConfig(Open(e2, config))
    ensures ComputeSum(Create(e1, config), x, y) == ComputeSum(Open(e2, config), x, y)
    ensures Destroy(Create(e1, config)) == Destroy(Open(e2, config))
  {
  }
}
