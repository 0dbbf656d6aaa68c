/**
  Surface materials (RayTracer/Material.c). A material splits light between a
  diffuse colour and a specular (mirror) colour according to a ratio.
 */
module Materials {
  import opened Vectors

  /** Material: the two colours and whether reflections are traced at all. */
  datatype Material = Material(diffuse: Vec3, specular: Vec3, hasSpecular: bool)

  /**
    Material_create: both colours are first normalised so that their largest
    channel is 1; the diffuse colour is then weighted by 1 - specRatio and the
    specular colour by specRatio. The source divides by the largest channel
    without a check; the model asks for it to be non-zero.
   */
  function Create(diffColor: Vec3, specColor: Vec3, specRatio: real): (m: Material)
    requires MaxComponent(diffColor) != 0.0 && MaxComponent(specColor) != 0.0
    ensures m.hasSpecular <==> specRatio > 0.0
    ensures specRatio == 0.0 ==> m.specular == Zero
    ensures specRatio == 1.0 ==> m.diffuse == Zero
  {
    Material(Scale(NormComponents(diffColor), 1.0 - specRatio),
             Scale(NormComponents(specColor), specRatio),
             specRatio > 0.0)
  }

  /**
    For a ratio in [0, 1] and colours with a positive channel, the diffuse and
    specular parts peak at 1 - specRatio and specRatio: together they never
    reflect more than the incoming light.
   */
  lemma CreateSplitsLight(diffColor: Vec3, specColor: Vec3, specRatio: real)
    requires MaxComponent(diffColor) > 0.0 && MaxComponent(specColor) > 0.0
    requires 0.0 <= specRatio <= 1.0
    ensures MaxComponent(Create(diffColor, specColor, specRatio).diffuse) == 1.0 - specRatio
    ensures MaxComponent(Create(diffColor, specColor, specRatio).specular) == specRatio
  {
    MaxComponentOfScale(NormComponents(diffColor), 1.0 - specRatio);
    MaxComponentOfScale(NormComponents(specColor), specRatio);
  }

  /**
    Each part keeps its colour's hue: it is the input colour scaled by one
    positive factor.
   */
  lemma CreateKeepsHue(diffColor: Vec3, specColor: Vec3, specRatio: real)
    requires MaxComponent(diffColor) > 0.0 && MaxComponent(specColor) > 0.0
    ensures Create(diffColor, specColor, specRatio).diffuse
         == Scale(diffColor, (1.0 - specRatio) / MaxComponent(diffColor))
    ensures Create(diffColor, specColor, specRatio).specular
         == Scale(specColor, specRatio / MaxComponent(specColor))
  {
    var md, ms := MaxComponent(diffColor), MaxComponent(specColor);
    ScaleOfQuotient(diffColor, md, 1.0 - specRatio);
    ScaleOfQuotient(specColor, ms, specRatio);
  }

  lemma ScaleOfQuotient(a: Vec3, m: real, k: real)
    requires m != 0.0
    ensures Scale(Vec3(a.x / m, a.y / m, a.z / m), k) == Scale(a, k / m)
  {
    assert (a.x / m) * k == a.x * (k / m);
    assert (a.y / m) * k == a.y * (k / m);
    assert (a.z / m) * k == a.z * (k / m);
  }

  /** Every channel of `v` lies in [0, 1]. */
  predicate InUnitRange(v: Vec3)
  {
    0.0 <= v.x <= 1.0 && 0.0 <= v.y <= 1.0 && 0.0 <= v.z <= 1.0
  }

  /** Non-negative colours and a ratio in [0, 1] give channels in [0, 1]. */
  lemma CreateChannelsInUnitRange(diffColor: Vec3, specColor: Vec3, specRatio: real)
    requires MaxComponent(diffColor) > 0.0 && MaxComponent(specColor) > 0.0
    requires diffColor.x >= 0.0 && diffColor.y >= 0.0 && diffColor.z >= 0.0
    requires specColor.x >= 0.0 && specColor.y >= 0.0 && specColor.z >= 0.0
    requires 0.0 <= specRatio <= 1.0
    ensures InUnitRange(Create(diffColor, specColor, specRatio).diffuse)
    ensures InUnitRange(Create(diffColor, specColor, specRatio).specular)
  {
    ScaleKeepsUnitRange(NormComponents(diffColor), 1.0 - specRatio);
    ScaleKeepsUnitRange(NormComponents(specColor), specRatio);
  }

  lemma ScaleKeepsUnitRange(v: Vec3, k: real)
    requires InUnitRange(v) && 0.0 <= k <= 1.0
    ensures InUnitRange(Scale(v, k))
  {
    UnitTimesUnit(v.x, k);
    UnitTimesUnit(v.y, k);
    UnitTimesUnit(v.z, k);
  }

  lemma UnitTimesUnit(u: real, k: real)
    requires 0.0 <= u <= 1.0 && 0.0 <= k <= 1.0
    ensures 0.0 <= u * k <= 1.0
  {
    assert u * k >= 0.0;
    assert u * k <= k by {
      assert k - u * k == (1.0 - u) * k;
    }
  }
}
