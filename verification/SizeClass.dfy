/** The size classes of small objects. */
module SizeClass {
  const CLASSES: seq<nat> :=
    [8, 16, 24, 32, 48, 64, 80, 96, 112, 128,
     160, 192, 224, 256, 320, 384, 448, 512, 640, 768,
     896, 1024, 1280, 1536, 1792, 2048, 2560, 3072, 3584, 4096,
     5120, 6144, 7168, 8192, 10240, 12288, 14336, 16384, 20480, 24576,
     28672, 32768]

  const CLASS_COUNT := 42

  /** The smallest class that holds size bytes, or CLASS_COUNT if none does. */
  function ClassOf(size: nat): (k: nat)
    ensures k <= CLASS_COUNT
    ensures k < CLASS_COUNT ==> size <= CLASSES[k]
    ensures forall j :: 0 <= j < k ==> CLASSES[j] < size
  {
    FirstAtLeast(size, 0)
  }

  function FirstAtLeast(size: nat, from: nat): (k: nat)
    requires from <= CLASS_COUNT
    ensures from <= k <= CLASS_COUNT
    ensures k < CLASS_COUNT ==> size <= CLASSES[k]
    ensures forall j :: from <= j < k ==> CLASSES[j] < size
    decreases CLASS_COUNT - from
  {
    if from == CLASS_COUNT || size <= CLASSES[from] then from else FirstAtLeast(size, from + 1)
  }

  lemma ClassesAscend(i: nat, j: nat)
    requires i <= j < CLASS_COUNT
    ensures CLASSES[i] <= CLASSES[j]
    decreases j - i
  {
    if i < j {
      ClassesAscend(i, j - 1);
    }
  }

  function Capacity(k: nat): nat
  {
    if k < CLASS_COUNT then CLASSES[k] else 0
  }

  /** Binary search finds the smallest class that is large enough. */
  method IndexOf(size: nat) returns (k: nat)
    ensures k == ClassOf(size)
    ensures k <= CLASS_COUNT
    ensures k < CLASS_COUNT ==> size <= CLASSES[k]
    ensures forall j :: 0 <= j < k ==> CLASSES[j] < size
  {
    var low, high := 0, CLASS_COUNT;
    while low < high
      invariant 0 <= low <= ClassOf(size) <= high <= CLASS_COUNT
    {
      var middle := low + (high - low) / 2;
      if CLASSES[middle] < size {
        if ClassOf(size) <= middle {
          ClassesAscend(ClassOf(size), middle);
        }
        low := middle + 1;
      } else {
        high := middle;
      }
    }
    k := low;
  }
}
