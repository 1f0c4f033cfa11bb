/**
 * The prime field the backend works in: the scalar field `Fr` of BN254,
 * with elements represented by their canonical integers in [0, P).
 * Addition is written without `%` so that it stays linear arithmetic.
 */
module Field {

  /** The BN254 scalar-field modulus. */
  const P: nat := 21888242871839275222246405745257275088548364400416034343698204186575808495617

  /** A canonical field element. */
  type Fe = x: nat | x < P

  /** The field element an integer stands for. */
  function Reduce(x: int): Fe
  {
    x % P
  }

  function Add(x: Fe, y: Fe): Fe
  {
    if x + y < P then x + y else x + y - P
  }

  function Mul(x: Fe, y: Fe): Fe
  {
    (x * y) % P
  }

  // ---------------------------------------------------------------------
  // Euclidean division by P.

  lemma DivModUnique(x: int, q: int, r: int)
    requires 0 <= r < P && x == P * q + r
    ensures x % P == r
  {
  }

  lemma ModAddMultiple(k: int, u: int)
    ensures (P * k + u) % P == u % P
  {
    var q := u / P;
    assert u == P * q + u % P;
    DivModUnique(P * k + u, k + q, u % P);
  }

  lemma ModOfSum(x: int, y: int)
    ensures (x % P + y % P) % P == (x + y) % P
  {
    var qx, qy := x / P, y / P;
    assert x == P * qx + x % P;
    assert y == P * qy + y % P;
    var s := x % P + y % P;
    if s < P {
      DivModUnique(x + y, qx + qy, s);
    } else {
      DivModUnique(x + y, qx + qy + 1, s - P);
    }
  }

  lemma ModMulLeft(t: int, z: int)
    ensures ((t % P) * z) % P == (t * z) % P
  {
    var q, r := t / P, t % P;
    assert t == P * q + r;
    var k := q * z;
    assert t * z == P * k + r * z by {
      calc {
        t * z;
        (P * q + r) * z;
        P * q * z + r * z;
      }
    }
    ModAddMultiple(k, r * z);
  }

  // ---------------------------------------------------------------------
  // The field operations agree with integer arithmetic modulo P.

  lemma AddIsMod(a: Fe, b: Fe)
    ensures Add(a, b) == (a + b) % P
  {
    if a + b >= P {
      DivModUnique(a + b, 1, a + b - P);
    } else {
      DivModUnique(a + b, 0, a + b);
    }
  }

  lemma AddReduce(x: int, y: int)
    ensures Add(Reduce(x), Reduce(y)) == Reduce(x + y)
  {
    AddIsMod(Reduce(x), Reduce(y));
    ModOfSum(x, y);
  }

  lemma MulReduceLeft(x: int, z: Fe)
    ensures Mul(Reduce(x), z) == Reduce(x * z)
  {
    ModMulLeft(x, z);
  }

  lemma ReduceCanonical(x: Fe)
    ensures Reduce(x) == x
  {
    DivModUnique(x, 0, x);
  }

  // ---------------------------------------------------------------------
  // Ring laws used when rearranging gate equations.

  lemma AddComm(x: Fe, y: Fe)
    ensures Add(x, y) == Add(y, x)
  {
  }

  lemma AddAssoc(x: Fe, y: Fe, z: Fe)
    ensures Add(Add(x, y), z) == Add(x, Add(y, z))
  {
  }

  lemma Distrib(x: Fe, y: Fe, z: Fe)
    ensures Mul(Add(x, y), z) == Add(Mul(x, z), Mul(y, z))
  {
    AddIsMod(x, y);
    ModMulLeft(x + y, z);
    assert (x + y) * z == x * z + y * z;
    AddIsMod(Mul(x, z), Mul(y, z));
    ModOfSum(x * z, y * z);
  }

  lemma MulZeroOne(x: Fe)
    ensures Mul(x, 0) == 0 && Mul(0, x) == 0
    ensures Mul(x, 1) == x && Mul(1, x) == x
  {
    DivModUnique(x, 0, x);
  }
}
