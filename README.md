# MAGE rendering core in Dafny

This project models the core of MAGE, a Direct3D 11 rendering engine, and proves properties of that model. The modelled parts are:

- **Bounding volumes.** Axis-aligned boxes, bounding spheres and the frustum built from a view-projection matrix. This covers their containment and overlap tests, and the frustum plane loop with its early return.
- **Quasi-Monte Carlo sampling.** The radical inverse, the Van der Corput sequence, Halton and Hammersley points, and their 2D/3D/4D and Roth variants.
- **The display configuration.** Anti-aliasing mode, windowed flag, vsync, display mode and the supersampled resolution.
- **Three transform kinds:**
  - the Euler-angle transform with its two lazily refreshed matrix caches;
  - the S1QT and SQT transforms;
  - the scene-graph transform that wraps a local transform, an owner and world caches.
- **The renderer's frame.** The renderer, the depth pass, the bounding-volume pass and the shading-normal pass are modelled as methods that append events to a trace. Each method is proved equal to a trace function. Lemmas about those functions state the orderings, brackets, selections and counts the engine relies on.
- **The world.** The model and light lists, with their lookup and removal operations.
- **Text.** The sprite font with its glyph lookup, text measuring, draw bounds and drawing, plus glyphs, sprite images, sprite texts and the outlined sprite text.
- **The binary reader's cursor** over an in-memory buffer.
- **Omni and ambient lights.** Intensity, power, radiance, spectra, range, clipping planes and the light's depth projection.

Single-precision floats are modelled as mathematical reals. Matrices and quaternions are symbolic: a matrix is the sequence of factors it was built from, and a product concatenates them. Inverse matrices are symbolic too: each factor has an inverse factor, and a product's inverse is the reversed product of the inverses. A scaling's inverse factor stands for the scaling by the reciprocals the engine builds, which is a true inverse only when no scale component is zero.

Direct3D calls appear only as trace events. Helpers whose bodies are not part of this model become parameters of the operations that call them: culling, the sphere's point test, ClampAngleRadians, GetResolutionMultiplier, the frustum's plane normalization and the quaternion rotation constructors.

## Model

| member | source | states |
|---|---|---|
| BoundingVolumes.AABBOfSphere | MAGE/MAGE/src/math/geometry/bounding_volume.cpp:29-35 | the box built from a sphere is centred on the sphere's centroid and is 2 r wide on x, y and z |
| BoundingVolumes.EnclosesSphere | MAGE/MAGE/src/math/geometry/bounding_volume.cpp:41-54 | as written, true iff on some axis the sphere stays a radius below the box's max and on some, possibly other, axis a radius above its min |
| BoundingVolumes.EnclosesSphereStrict | MAGE/MAGE/src/math/geometry/bounding_volume.cpp:56-73 | as written, the same with strictly more than a radius of room on those axes |
| BoundingVolumes.OverlapsSphere | MAGE/MAGE/src/math/geometry/bounding_volume.cpp:75-89 | as written, true iff on some axis the sphere reaches down to the box's max and on some, possibly other, axis up to its min |
| BoundingVolumes.OverlapsSphereStrict | MAGE/MAGE/src/math/geometry/bounding_volume.cpp:91-105 | as written, the same with strict comparisons |
| BoundingVolumes.BoxOfSphereEnclosesIt | MAGE/MAGE/src/math/geometry/bounding_volume.cpp:29-105 | the box built from a sphere encloses that sphere but not strictly, since the sphere touches every face, and overlaps it iff the radius is non-negative |
| BoundingVolumes.AABBTestsOrdered | MAGE/MAGE/src/math/geometry/bounding_volume.cpp:41-105 | as written, EnclosesStrict implies Encloses and OverlapsStrict implies Overlaps; for r >= 0, enclosing implies overlapping |
| BoundingVolumes.EnclosesSphereAcceptsProtrudingSphere | MAGE/MAGE/src/math/geometry/bounding_volume.cpp:41-54 | as written, Encloses accepts the sphere of radius 2 at (1,5,5) in the box [0,10]^3 although the sphere's box is not inside it |
| BoundingVolumes.OverlapsSphereAcceptsDistantSphere | MAGE/MAGE/src/math/geometry/bounding_volume.cpp:75-89 | as written, Overlaps accepts the sphere of radius 1 at (20,5,5) against the box [0,10]^3 although the two boxes are disjoint |
| BoundingVolumes.IntendedTestsUseSphereBox | MAGE/MAGE/src/math/geometry/bounding_volume.cpp:41-105 | the corrected tests hold iff the sphere's box lies inside, or meets, the box; each corrected test implies the as-written one |
| BoundingVolumes.SphereOfAABB | MAGE/MAGE/src/math/geometry/bounding_volume.cpp:111-118 | the sphere keeps the box centroid, and its radius is the largest of the three components of the box radius |
| BoundingVolumes.SphereEnclosesBox | MAGE/MAGE/src/math/geometry/bounding_volume.cpp:124-186 | a sphere encloses a box (strictly or not) iff it encloses each of the box's eight corners |
| BoundingVolumes.SphereEnclosesSphere | MAGE/MAGE/src/math/geometry/bounding_volume.cpp:188-238 | a sphere encloses another iff it encloses the other's six points one radius away along -x, +x, -y, +y, -z, +z |
| BoundingVolumes.ExtractPlanes | MAGE/MAGE/src/math/geometry/bounding_volume.cpp:244-286 | the constructor reads six planes off the transposed transform |
| BoundingVolumes.ExtractedPlanesMeasureClipBounds | MAGE/MAGE/src/math/geometry/bounding_volume.cpp:247-286 | left, right, bottom, top, near and far measure w + x, w - x, w + y, w - y, z and w - z of the transformed point |
| BoundingVolumes.FrustumPlanes | MAGE/MAGE/src/math/geometry/bounding_volume.cpp:244-290 | the frustum holds six planes, each extracted plane normalised |
| BoundingVolumes.NormalizeKeepsSide | MAGE/MAGE/src/math/geometry/bounding_volume.cpp:287-289 | normalising a plane by a positive factor keeps the side (>= 0 and > 0) of every point |
| BoundingVolumes.FrustumEnclosesClipVolume | MAGE/MAGE/src/math/geometry/bounding_volume.cpp:244-305 | a point lies in the frustum iff its image satisfies -w <= x <= w, -w <= y <= w and 0 <= z <= w |
| BoundingVolumes.FrustumTestsOrdered | MAGE/MAGE/src/math/geometry/bounding_volume.cpp:296-428 | a point test is a sphere test of radius 0; for r >= 0 Encloses(sphere) implies Overlaps(sphere); every strict test implies its plain one |
| BoundingVolumes.BoundingFrustum.constructor | MAGE/MAGE/src/math/geometry/bounding_volume.cpp:244-290 | the constructor fills its six planes with the normalised extracted planes |
| BoundingVolumes.BoundingFrustum.AllPlanesPass | MAGE/MAGE/src/math/geometry/bounding_volume.cpp:296-305 | the shared loop returns true iff every plane passes the test (>= bound, or > bound when strict) |
| BoundingVolumes.BoundingFrustum.EnclosesPoint | MAGE/MAGE/src/math/geometry/bounding_volume.cpp:296-316 | Encloses(point) iff every signed distance is >= 0 (> 0 when strict) |
| BoundingVolumes.BoundingFrustum.EnclosesSphere | MAGE/MAGE/src/math/geometry/bounding_volume.cpp:342-368 | Encloses(sphere) iff every centroid distance is >= r (> r when strict) |
| BoundingVolumes.BoundingFrustum.OverlapsSphere | MAGE/MAGE/src/math/geometry/bounding_volume.cpp:400-428 | Overlaps(sphere) iff every centroid distance is >= -r (> -r when strict) |
| BoundingVolumes.BoundingFrustum.PassesBox | MAGE/MAGE/src/math/geometry/bounding_volume.cpp:318-398 | the AABB tests hold iff the box's min (or max) point along each plane normal has distance >= 0 (> 0 when strict) |
| BoundingVolumes.BoundingFrustum.EqualsAsWritten | MAGE/MAGE/src/math/geometry/bounding_volume.cpp:434-442 | as written, operator== returns false for every pair of frustums |
| BoundingVolumes.BoundingFrustum.Equals | MAGE/MAGE/src/math/geometry/bounding_volume.cpp:434-442 | the corrected operator== returns true iff all six planes agree, so a frustum equals itself |
| QuasiMonteCarlo.RadicalInverseOf | MAGE/Code/Engine/Math/sampling/qmc.hpp:19-30 | the radical inverse of any index lies in [0, 1), and index 0 gives 0 because the loop never runs |
| QuasiMonteCarlo.Digits | MAGE/Code/Engine/Math/sampling/qmc.hpp:23-27 | the digits the loop consumes, lowest first, are each below the base |
| QuasiMonteCarlo.DigitsExpand | MAGE/Code/Engine/Math/sampling/qmc.hpp:23-27 | the digits the loop consumes read back to the index |
| QuasiMonteCarlo.RadicalInverseIsDigitSeries | MAGE/Code/Engine/Math/sampling/qmc.hpp:19-30 | RadicalInverse(i, b) is the sum of d_k / b^(k+1) over the base-b digits d_k of i |
| QuasiMonteCarlo.RadicalInverseOfOneDigit | MAGE/Code/Engine/Math/sampling/qmc.hpp:19-30 | an index below the base is mirrored to index / base |
| QuasiMonteCarlo.DigitStep | MAGE/Code/Engine/Math/sampling/qmc.hpp:23-27 | one turn of the loop keeps result + RadicalInverse(rest) / denom equal to the final value |
| QuasiMonteCarlo.RadicalInverse | MAGE/Code/Engine/Math/sampling/qmc.hpp:19-30 | the loop returns the radical inverse of the index in the base |
| QuasiMonteCarlo.VanderCorput | MAGE/Code/Engine/Math/sampling/qmc.hpp:32-35 | VanderCorput(i) is the radical inverse in base 2 |
| QuasiMonteCarlo.VanderCorputFirstPoints | MAGE/Code/Engine/Math/sampling/qmc.hpp:32-35 | VanderCorput maps 0, 1, 2, 3 to 0, 0.5, 0.25, 0.75 |
| QuasiMonteCarlo.Halton | MAGE/Code/Engine/Math/sampling/qmc.hpp:37-46 | given no more dimensions than tabulated primes, dimension k holds the radical inverse in the k-th prime |
| QuasiMonteCarlo.Halton2D | MAGE/Code/Engine/Math/sampling/qmc.hpp:48-54 | the coordinates are the radical inverses in bases 2 and 3 |
| QuasiMonteCarlo.Halton3D | MAGE/Code/Engine/Math/sampling/qmc.hpp:56-63 | the coordinates are the radical inverses in bases 2, 3 and 5 |
| QuasiMonteCarlo.Halton4D | MAGE/Code/Engine/Math/sampling/qmc.hpp:65-73 | the coordinates are the radical inverses in bases 2, 3, 5 and 7 |
| QuasiMonteCarlo.Stratum | MAGE/Code/Engine/Math/sampling/qmc.hpp:86 | index / nb_samples lies in [0, 1) when index < nb_samples |
| QuasiMonteCarlo.Hammersley | MAGE/Code/Engine/Math/sampling/qmc.hpp:75-92 | given index < nb_samples and at least one dimension, the first coordinate is index / nb_samples and dimension k >= 1 holds the radical inverse in prime k - 1 |
| QuasiMonteCarlo.Hammersley2D | MAGE/Code/Engine/Math/sampling/qmc.hpp:94-102 | the point is (index / nb_samples, VanderCorput(index)) |
| QuasiMonteCarlo.Hammersley3D | MAGE/Code/Engine/Math/sampling/qmc.hpp:104-113 | the point is the stratum and the radical inverses in bases 2 and 3 |
| QuasiMonteCarlo.Hammersley4D | MAGE/Code/Engine/Math/sampling/qmc.hpp:115-125 | the point is the stratum and the radical inverses in bases 2, 3 and 5 |
| QuasiMonteCarlo.Roth | MAGE/Code/Engine/Math/sampling/qmc.hpp:127-130 | Roth returns the 2D Hammersley point |
| Display.AAClassesDisjoint | MAGE/Code/Engine/Rendering/display/display_configuration.hpp:285-327 | no mode is both MSAA and SSAA; FXAA is neither; a mode is an AA mode iff it is FXAA, MSAA or SSAA |
| Display.DisplayConfiguration.constructor | MAGE/Code/Engine/Rendering/display/display_configuration.hpp:42-50 | a new configuration keeps the display mode and starts with AA None, windowed, without V-sync |
| Display.DisplayConfiguration.GetDisplayResolution | MAGE/Code/Engine/Rendering/display/display_configuration.hpp:142-167 | the resolution is the width and height of the current display mode |
| Display.DisplayConfiguration.GetSSDisplayResolution | MAGE/Code/Engine/Rendering/display/display_configuration.hpp:177-203 | each super-sampled dimension is a U32; when the product fits it is the resolution multiplier of the AA mode times the display dimension |
| Display.DisplayConfiguration.SetDisplayMode | MAGE/Code/Engine/Rendering/display/display_configuration.hpp:270-272 | the mode and so the resolution are replaced; the AA, windowed and V-sync fields stay |
| Display.DisplayConfiguration.UsesAA | MAGE/Code/Engine/Rendering/display/display_configuration.hpp:285-287 | true iff the AA mode is not None |
| Display.DisplayConfiguration.UsesMSAA | MAGE/Code/Engine/Rendering/display/display_configuration.hpp:296-307 | a configuration that uses MSAA uses AA and does not use SSAA |
| Display.DisplayConfiguration.UsesSSAA | MAGE/Code/Engine/Rendering/display/display_configuration.hpp:316-327 | a configuration that uses SSAA uses AA |
| Display.DisplayConfiguration.SetAA | MAGE/Code/Engine/Rendering/display/display_configuration.hpp:335-348 | GetAA then returns the new mode; the other fields stay |
| Display.DisplayConfiguration.SetWindowed | MAGE/Code/Engine/Rendering/display/display_configuration.hpp:362-388 | the windowed flag is set and IsFullScreen is its negation; the other fields stay |
| Display.DisplayConfiguration.IsFullScreen | MAGE/Code/Engine/Rendering/display/display_configuration.hpp:386-388 | true iff the configuration is not windowed |
| Display.DisplayConfiguration.SetFullScreen | MAGE/Code/Engine/Rendering/display/display_configuration.hpp:397-399 | SetFullScreen(f) leaves the configuration windowed iff not f, as SetWindowed(!f) does |
| Display.DisplayConfiguration.SetVSync | MAGE/Code/Engine/Rendering/display/display_configuration.hpp:413-426 | the V-sync flag is set; the other fields stay |
| Matrices.Normalize | MAGE/Math/src/transform/sqt_transform.hpp:360-362 | normalising gives a unit quaternion and leaves a unit quaternion as it is |
| Matrices.InverseFactor | MAGE/MAGE/src/math/transform.hpp:332-334 | the inverse the engine builds for a translation, rotation or scaling is again invertible |
| Matrices.FactorInvolution | MAGE/MAGE/src/math/transform.hpp:332-334 | inverting a translation, rotation or scaling twice gives it back |
| Matrices.Inverse | MAGE/MAGE/src/math/transform.hpp:1238-1245 | the inverse of a product has as many factors, each invertible |
| Matrices.InverseOfOne | MAGE/MAGE/src/math/transform.hpp:332-334 | the inverse of a single factor is that factor's inverse |
| Matrices.InverseOfProduct | MAGE/MAGE/src/math/transform.hpp:1226-1245 | the inverse of a product is the product of the inverses in reverse order |
| Matrices.InverseInvolution | MAGE/MAGE/src/math/transform.hpp:1226-1245 | inverting a product twice gives it back |
| Matrices.OriginAfterLinear | MAGE/MAGE/src/math/transform.hpp:1034-1036 | scalings and rotations followed by a translation take the origin to the translation |
| Matrices.LinearKeepsOrigin | MAGE/MAGE/src/math/transform.hpp:704-708 | scalings and rotations keep the origin where it is |
| MathTransform.RotationInverse | MAGE/MAGE/src/math/transform.hpp:704-719 | the parent-to-object rotation (-y, -x, -z) is the inverse of the object-to-parent rotation (z, x, y) |
| MathTransform.CachedMatricesAgree | MAGE/MAGE/src/math/transform.hpp:1226-1245 | the two cached matrices are symbolic inverses of each other (a true inverse only when no scale component is zero), and the object-to-parent matrix takes the object origin to the translation |
| MathTransform.Transform.constructor | MAGE/MAGE/src/math/transform.hpp:40-73 | both constructors store the components and leave both caches dirty |
| MathTransform.Transform.SetDirty | MAGE/MAGE/src/math/transform.hpp:1218-1221 | both flags are set; the components and cached matrices stay |
| MathTransform.Transform.SetTranslationX | MAGE/MAGE/src/math/transform.hpp:131-134 | x takes the new value; the other components stay, both caches are marked dirty and keep their old matrices |
| MathTransform.Transform.SetTranslationY | MAGE/MAGE/src/math/transform.hpp:143-146 | y takes the new value; the other components stay, both caches are marked dirty and keep their old matrices |
| MathTransform.Transform.SetTranslationZ | MAGE/MAGE/src/math/transform.hpp:155-158 | z takes the new value; the other components stay, both caches are marked dirty and keep their old matrices |
| MathTransform.Transform.SetTranslation | MAGE/MAGE/src/math/transform.hpp:171-200 | the translation takes the new value; the other components stay, both caches are marked dirty and keep their old matrices |
| MathTransform.Transform.AddTranslationX | MAGE/MAGE/src/math/transform.hpp:208-211 | the amount is added to x; the other components stay and both caches are dirty |
| MathTransform.Transform.AddTranslationY | MAGE/MAGE/src/math/transform.hpp:219-222 | the amount is added to y; the other components stay and both caches are dirty |
| MathTransform.Transform.AddTranslationZ | MAGE/MAGE/src/math/transform.hpp:230-233 | the amount is added to z; the other components stay and both caches are dirty |
| MathTransform.Transform.AddTranslation | MAGE/MAGE/src/math/transform.hpp:246-275 | the translation is added component-wise; rotation and scale stay and both caches are dirty |
| MathTransform.Transform.GetObjectToParentTranslationMatrix | MAGE/MAGE/src/math/transform.hpp:322-324 | the translation matrix takes the origin to the translation |
| MathTransform.Transform.GetParentToObjectTranslationMatrix | MAGE/MAGE/src/math/transform.hpp:332-334 | the parent-to-object translation matrix is the inverse of the object-to-parent one |
| MathTransform.Transform.SetRotationX | MAGE/MAGE/src/math/transform.hpp:347-350 | the x angle takes the new value; the other components stay, both caches are marked dirty and keep their old matrices |
| MathTransform.Transform.SetRotationY | MAGE/MAGE/src/math/transform.hpp:359-362 | the y angle takes the new value; the other components stay, both caches are marked dirty and keep their old matrices |
| MathTransform.Transform.SetRotationZ | MAGE/MAGE/src/math/transform.hpp:371-374 | the z angle takes the new value; the other components stay, both caches are marked dirty and keep their old matrices |
| MathTransform.Transform.SetRotation | MAGE/MAGE/src/math/transform.hpp:387-416 | the rotation takes the new value; the other components stay, both caches are marked dirty and keep their old matrices |
| MathTransform.Transform.SetRotationAroundDirection | MAGE/MAGE/src/math/transform.hpp:427-444 | the rotation becomes the angles read back from the axis-angle rotation; translation and scale stay and both caches are dirty |
| MathTransform.Transform.AddRotationX | MAGE/MAGE/src/math/transform.hpp:452-455 | the amount is added to the x angle; the other components stay and both caches are dirty |
| MathTransform.Transform.AddRotationY | MAGE/MAGE/src/math/transform.hpp:463-466 | the amount is added to the y angle; the other components stay and both caches are dirty |
| MathTransform.Transform.AddRotationZ | MAGE/MAGE/src/math/transform.hpp:474-477 | the amount is added to the z angle; the other components stay and both caches are dirty |
| MathTransform.Transform.AddRotation | MAGE/MAGE/src/math/transform.hpp:490-519 | the rotation is added component-wise; translation and scale stay and both caches are dirty |
| MathTransform.Transform.AddAndClampRotationX | MAGE/MAGE/src/math/transform.hpp:536-541 | the x angle becomes ClampAngleRadians(x + amount, min, max); the rest stays and both caches are dirty |
| MathTransform.Transform.AddAndClampRotationY | MAGE/MAGE/src/math/transform.hpp:558-563 | the y angle becomes ClampAngleRadians(y + amount, min, max); the rest stays and both caches are dirty |
| MathTransform.Transform.AddAndClampRotationZ | MAGE/MAGE/src/math/transform.hpp:580-585 | the z angle becomes ClampAngleRadians(z + amount, min, max); the rest stays and both caches are dirty |
| MathTransform.Transform.AddAndClampRotation | MAGE/MAGE/src/math/transform.hpp:606-658 | each angle is replaced by ClampAngleRadians(old + delta, min, max); translation and scale stay and both caches are dirty |
| MathTransform.Transform.GetObjectToParentRotationMatrix | MAGE/MAGE/src/math/transform.hpp:704-708 | the rotation matrix keeps the origin in place |
| MathTransform.Transform.GetParentToObjectRotationMatrix | MAGE/MAGE/src/math/transform.hpp:715-719 | the parent-to-object rotation matrix is the inverse of the object-to-parent one |
| MathTransform.Transform.SetScaleX | MAGE/MAGE/src/math/transform.hpp:732-735 | the x scale takes the new value; the other components stay, both caches are marked dirty and keep their old matrices |
| MathTransform.Transform.SetScaleY | MAGE/MAGE/src/math/transform.hpp:744-747 | the y scale takes the new value; the other components stay, both caches are marked dirty and keep their old matrices |
| MathTransform.Transform.SetScaleZ | MAGE/MAGE/src/math/transform.hpp:756-759 | the z scale takes the new value; the other components stay, both caches are marked dirty and keep their old matrices |
| MathTransform.Transform.SetScale | MAGE/MAGE/src/math/transform.hpp:783-812 | the scale takes the new value; the other components stay, both caches are marked dirty and keep their old matrices |
| MathTransform.Transform.SetUniformScale | MAGE/MAGE/src/math/transform.hpp:768-770 | SetScale(s) sets all three scale components to s; the rest stays and both caches are dirty |
| MathTransform.Transform.AddScaleX | MAGE/MAGE/src/math/transform.hpp:820-823 | the amount is added to the x scale; the other components stay and both caches are dirty |
| MathTransform.Transform.AddScaleY | MAGE/MAGE/src/math/transform.hpp:831-834 | the amount is added to the y scale; the other components stay and both caches are dirty |
| MathTransform.Transform.AddScaleZ | MAGE/MAGE/src/math/transform.hpp:842-845 | the amount is added to the z scale; the other components stay and both caches are dirty |
| MathTransform.Transform.AddScale | MAGE/MAGE/src/math/transform.hpp:869-896 | the scale is added component-wise; translation and rotation stay and both caches are dirty |
| MathTransform.Transform.AddUniformScale | MAGE/MAGE/src/math/transform.hpp:854-856 | AddScale(s) adds s to each scale component; the rest stays and both caches are dirty |
| MathTransform.Transform.GetObjectToParentScaleMatrix | MAGE/MAGE/src/math/transform.hpp:939-941 | the scaling matrix keeps the origin in place |
| MathTransform.Transform.GetParentToObjectScaleMatrix | MAGE/MAGE/src/math/transform.hpp:948-951 | the scaling by the reciprocals is the symbolic inverse of the scaling, a true inverse only when no scale component is zero |
| MathTransform.Transform.GetParentOrigin | MAGE/MAGE/src/math/transform.hpp:1034-1036 | the parent origin is where the object-to-parent matrix takes the object origin, which is the translation |
| MathTransform.Transform.UpdateObjectToParentMatrix | MAGE/MAGE/src/math/transform.hpp:1226-1233 | the object-to-parent matrix is scale x rotation x translation of the current components; it is recomputed only when dirty, and only its own flag is cleared |
| MathTransform.Transform.UpdateParentToObjectMatrix | MAGE/MAGE/src/math/transform.hpp:1238-1245 | the parent-to-object matrix is inverse translation x inverse rotation x inverse scale; it is recomputed only when dirty, and only its own flag is cleared |
| MathTransform.Transform.GetObjectToParentMatrix | MAGE/MAGE/src/math/transform.hpp:1104-1107 | the read returns the matrix of the current components, equal to the cached one when the cache was clean; the other cache is untouched |
| MathTransform.Transform.GetParentToObjectMatrix | MAGE/MAGE/src/math/transform.hpp:1114-1117 | the read returns the inverse matrix of the current components, equal to the cached one when the cache was clean; the other cache is untouched |
| MathTransform.ReadTwice | MAGE/MAGE/src/math/transform.hpp:1226-1233 | two reads with no mutation between them return the same matrix, and neither touches the other cache's flag |
| MathTransform.MutateThenRead | MAGE/MAGE/src/math/transform.hpp:1104-1117 | after a mutator both reads recompute from the new components, and the two results are symbolic inverses of each other |
| MathTransform.Transform.GetTranslation | MAGE/MAGE/src/math/transform.hpp:312-314 | returns the stored translation unchanged |
| MathTransform.Transform.GetRotation | MAGE/MAGE/src/math/transform.hpp:695-697 | returns the stored rotation unchanged |
| MathTransform.Transform.GetScale | MAGE/MAGE/src/math/transform.hpp:930-932 | returns the stored scale unchanged |
| MathTransform.Transform.GetObjectOrigin | MAGE/MAGE/src/math/transform.hpp:964-966 | the object-space origin is the homogeneous point (0, 0, 0, 1), whatever the state |
| MathTransform.Transform.GetObjectAxisX | MAGE/MAGE/src/math/transform.hpp:975-977 | the object-space x-axis is the unit direction (w = 0) along +x, whatever the state |
| MathTransform.Transform.GetObjectAxisY | MAGE/MAGE/src/math/transform.hpp:986-988 | the object-space y-axis is the unit direction (w = 0) along +y, whatever the state |
| MathTransform.Transform.GetObjectAxisZ | MAGE/MAGE/src/math/transform.hpp:997-999 | the object-space z-axis is the unit direction (w = 0) along +z, whatever the state |
| SqtTransform.AffineMatricesAgree | MAGE/Math/src/transform/sqt_transform.hpp:601-619 | the affine matrix (scale, rotation, translation) and the inverse affine matrix are symbolic inverses of each other (a true inverse only for a nonzero scale), and the affine matrix takes the origin to the translation |
| SqtTransform.S1QTTransform.constructor | MAGE/Math/src/transform/sqt_transform.hpp:43-69 | the constructors store the translation and scale and the normalised rotation |
| SqtTransform.S1QTTransform.Default | MAGE/Math/src/transform/sqt_transform.hpp:43-51 | with every argument defaulted the translation is (0,0,0), the rotation is the lanes (1,0,0,0) normalised and the scale is 1 |
| SqtTransform.S1QTTransform.Copy | MAGE/Math/src/transform/sqt_transform.hpp:77 | the copy constructor copies the three components |
| SqtTransform.S1QTTransform.Assign | MAGE/Math/src/transform/sqt_transform.hpp:104-116 | copy and move assignment copy the three components |
| SqtTransform.S1QTTransform.SetTranslationX | MAGE/Math/src/transform/sqt_transform.hpp:130-132 | only the x translation changes |
| SqtTransform.S1QTTransform.SetTranslationY | MAGE/Math/src/transform/sqt_transform.hpp:141-143 | only the y translation changes |
| SqtTransform.S1QTTransform.SetTranslationZ | MAGE/Math/src/transform/sqt_transform.hpp:152-154 | only the z translation changes |
| SqtTransform.S1QTTransform.SetTranslation | MAGE/Math/src/transform/sqt_transform.hpp:167-191 | the translation is replaced; the other components stay |
| SqtTransform.S1QTTransform.AddTranslationX | MAGE/Math/src/transform/sqt_transform.hpp:199-201 | the amount is added to the x translation; the other components stay |
| SqtTransform.S1QTTransform.AddTranslationY | MAGE/Math/src/transform/sqt_transform.hpp:209-211 | the amount is added to the y translation; the other components stay |
| SqtTransform.S1QTTransform.AddTranslationZ | MAGE/Math/src/transform/sqt_transform.hpp:219-221 | the amount is added to the z translation; the other components stay |
| SqtTransform.S1QTTransform.AddTranslation | MAGE/Math/src/transform/sqt_transform.hpp:234-258 | the translation is added component-wise; the other components stay |
| SqtTransform.S1QTTransform.SetRotation | MAGE/Math/src/transform/sqt_transform.hpp:349-362 | the stored rotation is the normalised quaternion, a unit quaternion; the other components stay |
| SqtTransform.S1QTTransform.SetRotationAroundDirection | MAGE/Math/src/transform/sqt_transform.hpp:373-377 | the rotation is the normalised quaternion of the direction and angle; the other components stay |
| SqtTransform.S1QTTransform.SetScale | MAGE/Math/src/transform/sqt_transform.hpp:433-435 | the scale is replaced; the other components stay |
| SqtTransform.S1QTTransform.AddScale | MAGE/Math/src/transform/sqt_transform.hpp:444-446 | the amount is added to the scale; the other components stay |
| SqtTransform.S1QTTransform.GetObjectToParentTranslationMatrix | MAGE/Math/src/transform/sqt_transform.hpp:320-322 | the translation matrix takes the origin to the translation |
| SqtTransform.S1QTTransform.GetParentToObjectTranslationMatrix | MAGE/Math/src/transform/sqt_transform.hpp:331-333 | the parent-to-object translation matrix is the inverse of the object-to-parent one |
| SqtTransform.S1QTTransform.GetObjectToParentRotationMatrix | MAGE/Math/src/transform/sqt_transform.hpp:405-407 | the rotation matrix keeps the origin in place |
| SqtTransform.S1QTTransform.GetParentToObjectRotationMatrix | MAGE/Math/src/transform/sqt_transform.hpp:415-417 | the rotation by the inverse quaternion is the inverse of the rotation |
| SqtTransform.S1QTTransform.GetObjectToParentScaleMatrix | MAGE/Math/src/transform/sqt_transform.hpp:464-466 | the scaling matrix keeps the origin in place |
| SqtTransform.S1QTTransform.GetParentToObjectScaleMatrix | MAGE/Math/src/transform/sqt_transform.hpp:474-476 | the inverse scaling is the symbolic inverse of the scaling, a true inverse only for a nonzero scale |
| SqtTransform.S1QTTransform.GetObjectToParentMatrix | MAGE/Math/src/transform/sqt_transform.hpp:601-606 | the object-to-parent matrix is scale x rotation x translation; it is invertible and takes the origin to the translation |
| SqtTransform.S1QTTransform.GetParentToObjectMatrix | MAGE/Math/src/transform/sqt_transform.hpp:614-619 | the parent-to-object matrix is inverse translation x inverse rotation x inverse scale, the inverse of the object-to-parent matrix |
| SqtTransform.S1QTTransform.GetParentOrigin | MAGE/Math/src/transform/sqt_transform.hpp:548-550 | the parent origin, the fourth row of the object-to-parent matrix, is the translation |
| SqtTransform.SQTTransform.constructor | MAGE/Math/src/transform/sqt_transform.hpp:773-801 | the constructors store the translation and scale and the normalised rotation |
| SqtTransform.SQTTransform.Default | MAGE/Math/src/transform/sqt_transform.hpp:773-783 | with every argument defaulted the translation is (0,0,0), the rotation is the lanes (1,0,0,0) normalised and the scale is (1,1,1) |
| SqtTransform.SQTTransform.FromS1QT | MAGE/Math/src/transform/sqt_transform.hpp:809-812 | the conversion keeps translation and rotation and repeats the uniform scale on x, y and z |
| SqtTransform.SQTTransform.Copy | MAGE/Math/src/transform/sqt_transform.hpp:820 | the copy constructor copies the three components |
| SqtTransform.SQTTransform.Assign | MAGE/Math/src/transform/sqt_transform.hpp:847-859 | copy and move assignment copy the three components |
| SqtTransform.SQTTransform.SetTranslationX | MAGE/Math/src/transform/sqt_transform.hpp:873-875 | only the x translation changes |
| SqtTransform.SQTTransform.SetTranslationY | MAGE/Math/src/transform/sqt_transform.hpp:884-886 | only the y translation changes |
| SqtTransform.SQTTransform.SetTranslationZ | MAGE/Math/src/transform/sqt_transform.hpp:895-897 | only the z translation changes |
| SqtTransform.SQTTransform.SetTranslation | MAGE/Math/src/transform/sqt_transform.hpp:910-934 | the translation is replaced; the other components stay |
| SqtTransform.SQTTransform.AddTranslationX | MAGE/Math/src/transform/sqt_transform.hpp:942-944 | the amount is added to the x translation; the other components stay |
| SqtTransform.SQTTransform.AddTranslationY | MAGE/Math/src/transform/sqt_transform.hpp:952-954 | the amount is added to the y translation; the other components stay |
| SqtTransform.SQTTransform.AddTranslationZ | MAGE/Math/src/transform/sqt_transform.hpp:962-964 | the amount is added to the z translation; the other components stay |
| SqtTransform.SQTTransform.AddTranslation | MAGE/Math/src/transform/sqt_transform.hpp:977-1001 | the translation is added component-wise; the other components stay |
| SqtTransform.SQTTransform.SetRotation | MAGE/Math/src/transform/sqt_transform.hpp:1092-1105 | the stored rotation is the normalised quaternion, a unit quaternion; the other components stay |
| SqtTransform.SQTTransform.SetRotationAroundDirection | MAGE/Math/src/transform/sqt_transform.hpp:1116-1120 | the rotation is the normalised quaternion of the direction and angle; the other components stay |
| SqtTransform.SQTTransform.SetScaleX | MAGE/Math/src/transform/sqt_transform.hpp:1176-1178 | only the x scale changes |
| SqtTransform.SQTTransform.SetScaleY | MAGE/Math/src/transform/sqt_transform.hpp:1187-1189 | only the y scale changes |
| SqtTransform.SQTTransform.SetScaleZ | MAGE/Math/src/transform/sqt_transform.hpp:1198-1200 | only the z scale changes |
| SqtTransform.SQTTransform.SetScale | MAGE/Math/src/transform/sqt_transform.hpp:1224-1248 | the scale is replaced; the other components stay |
| SqtTransform.SQTTransform.SetUniformScale | MAGE/Math/src/transform/sqt_transform.hpp:1209-1211 | SetScale(s) sets all three scale components to s; the other components stay |
| SqtTransform.SQTTransform.AddScaleX | MAGE/Math/src/transform/sqt_transform.hpp:1256-1258 | the amount is added to the x scale; the other components stay |
| SqtTransform.SQTTransform.AddScaleY | MAGE/Math/src/transform/sqt_transform.hpp:1266-1268 | the amount is added to the y scale; the other components stay |
| SqtTransform.SQTTransform.AddScaleZ | MAGE/Math/src/transform/sqt_transform.hpp:1276-1278 | the amount is added to the z scale; the other components stay |
| SqtTransform.SQTTransform.AddScale | MAGE/Math/src/transform/sqt_transform.hpp:1302-1326 | the scale is added component-wise; the other components stay |
| SqtTransform.SQTTransform.AddUniformScale | MAGE/Math/src/transform/sqt_transform.hpp:1287-1289 | AddScale(s) adds s to each scale component; the other components stay |
| SqtTransform.SQTTransform.GetObjectToParentTranslationMatrix | MAGE/Math/src/transform/sqt_transform.hpp:1063-1065 | the translation matrix takes the origin to the translation |
| SqtTransform.SQTTransform.GetParentToObjectTranslationMatrix | MAGE/Math/src/transform/sqt_transform.hpp:1074-1076 | the parent-to-object translation matrix is the inverse of the object-to-parent one |
| SqtTransform.SQTTransform.GetObjectToParentRotationMatrix | MAGE/Math/src/transform/sqt_transform.hpp:1148-1150 | the rotation matrix keeps the origin in place |
| SqtTransform.SQTTransform.GetParentToObjectRotationMatrix | MAGE/Math/src/transform/sqt_transform.hpp:1158-1160 | the rotation by the inverse quaternion is the inverse of the rotation |
| SqtTransform.SQTTransform.GetObjectToParentScaleMatrix | MAGE/Math/src/transform/sqt_transform.hpp:1385-1387 | the scaling matrix keeps the origin in place |
| SqtTransform.SQTTransform.GetParentToObjectScaleMatrix | MAGE/Math/src/transform/sqt_transform.hpp:1395-1397 | the inverse scaling is the symbolic inverse of the scaling, a true inverse only for a nonzero scale |
| SqtTransform.SQTTransform.GetObjectToParentMatrix | MAGE/Math/src/transform/sqt_transform.hpp:1522-1528 | the object-to-parent matrix is scale x rotation x translation; it is invertible and takes the origin to the translation |
| SqtTransform.SQTTransform.GetParentToObjectMatrix | MAGE/Math/src/transform/sqt_transform.hpp:1535-1541 | the parent-to-object matrix is inverse translation x inverse rotation x inverse scale, the inverse of the object-to-parent matrix |
| SqtTransform.SQTTransform.GetParentOrigin | MAGE/Math/src/transform/sqt_transform.hpp:1469-1471 | the parent origin, the fourth row of the object-to-parent matrix, is the translation |
| SqtTransform.Widen | MAGE/Math/src/transform/sqt_transform.hpp:809-812 | converting a uniform-scale transform gives a per-axis transform with the same object-to-parent and parent-to-object matrices |
| SqtTransform.S1QTTransform.GetTranslation | MAGE/Math/src/transform/sqt_transform.hpp:309-311 | returns the stored translation unchanged |
| SqtTransform.S1QTTransform.GetRotation | MAGE/Math/src/transform/sqt_transform.hpp:395-397 | returns the stored rotation unchanged |
| SqtTransform.S1QTTransform.GetScale | MAGE/Math/src/transform/sqt_transform.hpp:454-456 | returns the stored scale unchanged |
| SqtTransform.S1QTTransform.GetObjectOrigin | MAGE/Math/src/transform/sqt_transform.hpp:493-495 | the object-space origin is the homogeneous point (0, 0, 0, 1), whatever the state |
| SqtTransform.S1QTTransform.GetObjectAxisX | MAGE/Math/src/transform/sqt_transform.hpp:505-507 | the object-space x-axis is the unit direction (w = 0) along +x, whatever the state |
| SqtTransform.S1QTTransform.GetObjectAxisY | MAGE/Math/src/transform/sqt_transform.hpp:517-519 | the object-space y-axis is the unit direction (w = 0) along +y, whatever the state |
| SqtTransform.S1QTTransform.GetObjectAxisZ | MAGE/Math/src/transform/sqt_transform.hpp:529-531 | the object-space z-axis is the unit direction (w = 0) along +z, whatever the state |
| SqtTransform.SQTTransform.GetTranslation | MAGE/Math/src/transform/sqt_transform.hpp:1052-1054 | returns the stored translation unchanged |
| SqtTransform.SQTTransform.GetRotation | MAGE/Math/src/transform/sqt_transform.hpp:1138-1140 | returns the stored rotation unchanged |
| SqtTransform.SQTTransform.GetScale | MAGE/Math/src/transform/sqt_transform.hpp:1375-1377 | returns the stored scale unchanged |
| SqtTransform.SQTTransform.GetObjectOrigin | MAGE/Math/src/transform/sqt_transform.hpp:1414-1416 | the object-space origin is the homogeneous point (0, 0, 0, 1), whatever the state |
| SqtTransform.SQTTransform.GetObjectAxisX | MAGE/Math/src/transform/sqt_transform.hpp:1426-1428 | the object-space x-axis is the unit direction (w = 0) along +x, whatever the state |
| SqtTransform.SQTTransform.GetObjectAxisY | MAGE/Math/src/transform/sqt_transform.hpp:1438-1440 | the object-space y-axis is the unit direction (w = 0) along +y, whatever the state |
| SqtTransform.SQTTransform.GetObjectAxisZ | MAGE/Math/src/transform/sqt_transform.hpp:1450-1452 | the object-space z-axis is the unit direction (w = 0) along +z, whatever the state |
| SceneTransform.WorldMatricesAgree | MAGE/Core/src/scene/transform.hpp:1190-1204 | the object-to-world matrix (local, then the owner's parent) and the world-to-object matrix are symbolic inverses of each other (a true inverse only when no local scale component is zero) |
| SceneTransform.Transform.constructor | MAGE/Core/src/scene/transform.hpp:39-45 | the default transform has the default local transform, no owner and both world matrices dirty |
| SceneTransform.Transform.Copy | MAGE/Core/src/scene/transform.hpp:53-59 | the copy constructor copies only the local transform: no owner, both world matrices dirty |
| SceneTransform.Transform.Move | MAGE/Core/src/scene/transform.hpp:67 | the defaulted move constructor takes every field, caches and owner included |
| SceneTransform.Transform.CopyAssign | MAGE/Core/src/scene/transform.hpp:86-90 | copy assignment takes the other transform's local transform as it was before the call (self-assignment included), keeps its own owner and marks both world matrices dirty |
| SceneTransform.Transform.MoveAssign | MAGE/Core/src/scene/transform.hpp:100-105 | move assignment takes the other transform's local transform and owner as they were before the call (self-assignment included) and marks both world matrices dirty |
| SceneTransform.Transform.SetDirty | MAGE/Core/src/scene/transform.hpp:1446 | both world flags are set; the local transform, the owner and the cached matrices stay |
| SceneTransform.Transform.SetTranslationX | MAGE/Core/src/scene/transform.hpp:119-122 | the local x translation is replaced; the owner stays and both world matrices are marked dirty, keeping their old values |
| SceneTransform.Transform.SetTranslationY | MAGE/Core/src/scene/transform.hpp:131-134 | the local y translation is replaced; the owner stays and both world matrices are marked dirty, keeping their old values |
| SceneTransform.Transform.SetTranslationZ | MAGE/Core/src/scene/transform.hpp:143-146 | the local z translation is replaced; the owner stays and both world matrices are marked dirty, keeping their old values |
| SceneTransform.Transform.SetTranslation | MAGE/Core/src/scene/transform.hpp:159-186 | the local translation is replaced; the owner stays and both world matrices are marked dirty, keeping their old values |
| SceneTransform.Transform.AddTranslationX | MAGE/Core/src/scene/transform.hpp:194-197 | the amount is added to the local x translation; the owner stays and both world matrices are marked dirty, keeping their old values |
| SceneTransform.Transform.AddTranslationY | MAGE/Core/src/scene/transform.hpp:205-208 | the amount is added to the local y translation; the owner stays and both world matrices are marked dirty, keeping their old values |
| SceneTransform.Transform.AddTranslationZ | MAGE/Core/src/scene/transform.hpp:216-219 | the amount is added to the local z translation; the owner stays and both world matrices are marked dirty, keeping their old values |
| SceneTransform.Transform.AddTranslation | MAGE/Core/src/scene/transform.hpp:232-259 | the local translation is added component-wise; the owner stays and both world matrices are marked dirty, keeping their old values |
| SceneTransform.Transform.SetRotationX | MAGE/Core/src/scene/transform.hpp:354-357 | the local x angle is replaced; the owner stays and both world matrices are marked dirty, keeping their old values |
| SceneTransform.Transform.SetRotationY | MAGE/Core/src/scene/transform.hpp:366-369 | the local y angle is replaced; the owner stays and both world matrices are marked dirty, keeping their old values |
| SceneTransform.Transform.SetRotationZ | MAGE/Core/src/scene/transform.hpp:378-381 | the local z angle is replaced; the owner stays and both world matrices are marked dirty, keeping their old values |
| SceneTransform.Transform.SetRotation | MAGE/Core/src/scene/transform.hpp:394-421 | the local rotation is replaced; the owner stays and both world matrices are marked dirty, keeping their old values |
| SceneTransform.Transform.SetRotationAroundDirection | MAGE/Core/src/scene/transform.hpp:432-437 | the local rotation becomes the angles of the axis-angle rotation; the owner stays and both world matrices are marked dirty, keeping their old values |
| SceneTransform.Transform.AddRotationX | MAGE/Core/src/scene/transform.hpp:445-448 | the amount is added to the local x angle; the owner stays and both world matrices are marked dirty, keeping their old values |
| SceneTransform.Transform.AddRotationY | MAGE/Core/src/scene/transform.hpp:474-477 | the amount is added to the local y angle; the owner stays and both world matrices are marked dirty, keeping their old values |
| SceneTransform.Transform.AddRotationZ | MAGE/Core/src/scene/transform.hpp:503-506 | the amount is added to the local z angle; the owner stays and both world matrices are marked dirty, keeping their old values |
| SceneTransform.Transform.AddRotation | MAGE/Core/src/scene/transform.hpp:537-606 | the local rotation is added component-wise; the owner stays and both world matrices are marked dirty, keeping their old values |
| SceneTransform.Transform.AddAndClampRotationX | MAGE/Core/src/scene/transform.hpp:463-466 | the local x angle becomes the clamped sum; the owner stays and both world matrices are marked dirty, keeping their old values |
| SceneTransform.Transform.AddAndClampRotationY | MAGE/Core/src/scene/transform.hpp:492-495 | the local y angle becomes the clamped sum; the owner stays and both world matrices are marked dirty, keeping their old values |
| SceneTransform.Transform.AddAndClampRotationZ | MAGE/Core/src/scene/transform.hpp:521-524 | the local z angle becomes the clamped sum; the owner stays and both world matrices are marked dirty, keeping their old values |
| SceneTransform.Transform.AddAndClampRotation | MAGE/Core/src/scene/transform.hpp:560-628 | each local angle becomes its clamped sum, with per-axis bounds; the owner stays and both world matrices are marked dirty, keeping their old values |
| SceneTransform.Transform.SetScaleX | MAGE/Core/src/scene/transform.hpp:744-747 | the local x scale is replaced; the owner stays and both world matrices are marked dirty, keeping their old values |
| SceneTransform.Transform.SetScaleY | MAGE/Core/src/scene/transform.hpp:756-759 | the local y scale is replaced; the owner stays and both world matrices are marked dirty, keeping their old values |
| SceneTransform.Transform.SetScaleZ | MAGE/Core/src/scene/transform.hpp:768-771 | the local z scale is replaced; the owner stays and both world matrices are marked dirty, keeping their old values |
| SceneTransform.Transform.SetUniformScale | MAGE/Core/src/scene/transform.hpp:780-783 | all three local scale components become s; the owner stays and both world matrices are marked dirty, keeping their old values |
| SceneTransform.Transform.SetScale | MAGE/Core/src/scene/transform.hpp:796-823 | the local scale is replaced; the owner stays and both world matrices are marked dirty, keeping their old values |
| SceneTransform.Transform.AddScaleX | MAGE/Core/src/scene/transform.hpp:831-834 | the amount is added to the local x scale; the owner stays and both world matrices are marked dirty, keeping their old values |
| SceneTransform.Transform.AddScaleY | MAGE/Core/src/scene/transform.hpp:842-845 | the amount is added to the local y scale; the owner stays and both world matrices are marked dirty, keeping their old values |
| SceneTransform.Transform.AddScaleZ | MAGE/Core/src/scene/transform.hpp:853-856 | the amount is added to the local z scale; the owner stays and both world matrices are marked dirty, keeping their old values |
| SceneTransform.Transform.AddUniformScale | MAGE/Core/src/scene/transform.hpp:864-867 | s is added to each local scale component; the owner stays and both world matrices are marked dirty, keeping their old values |
| SceneTransform.Transform.AddScale | MAGE/Core/src/scene/transform.hpp:879-904 | the local scale is added component-wise; the owner stays and both world matrices are marked dirty, keeping their old values |
| SceneTransform.Transform.SetLocalTransform | MAGE/Core/src/scene/transform.hpp:1159-1162 | the whole local transform is replaced; the owner stays and both world matrices are marked dirty, keeping their old values |
| SceneTransform.Transform.GetObjectToParentMatrix | MAGE/Core/src/scene/transform.hpp:1170-1172 | the forwarded local matrix is invertible and takes the origin to the local translation |
| SceneTransform.Transform.GetParentToObjectMatrix | MAGE/Core/src/scene/transform.hpp:1180-1182 | the forwarded parent-to-object matrix is the inverse of the object-to-parent matrix |
| SceneTransform.Transform.GetParentOrigin | MAGE/Core/src/scene/transform.hpp:1050-1052 | the parent origin is the local translation, where the object-to-parent matrix takes the origin |
| SceneTransform.Transform.HasOwner | MAGE/Core/src/scene/transform.hpp:1412-1414 | true iff an owner node is set; a transform without owner has no world matrices and is consistent whatever its caches hold |
| SceneTransform.Transform.SetOwner | MAGE/Core/src/scene/transform.hpp:1469-1472 | the owner is stored, HasOwner reflects it, and both world matrices are marked dirty |
| SceneTransform.Transform.UpdateObjectToWorldMatrix | MAGE/Core/src/scene/transform.hpp:1474-1479 | given an owner, the object-to-world matrix is the local matrix followed by the owner's parent-to-world matrix; it is rebuilt only when dirty, and only its own flag is cleared |
| SceneTransform.Transform.UpdateWorldToObjectMatrix | MAGE/Core/src/scene/transform.hpp:1481-1486 | given an owner, the world-to-object matrix is the owner's world-to-parent matrix followed by the inverse local matrix; it is rebuilt only when dirty, and only its own flag is cleared |
| SceneTransform.Transform.GetObjectToWorldMatrix | MAGE/Core/src/scene/transform.hpp:1190-1193 | the read returns the object-to-world matrix of the current local transform and owner, equal to the cached one when the cache was clean; the other cache is untouched |
| SceneTransform.Transform.GetWorldToObjectMatrix | MAGE/Core/src/scene/transform.hpp:1201-1204 | the read returns the world-to-object matrix of the current local transform and owner, equal to the cached one when the cache was clean; the other cache is untouched |
| SceneTransform.MutateThenReadWorld | MAGE/Core/src/scene/transform.hpp:1190-1204 | after a mutator both world reads are rebuilt from the new local transform and are symbolic inverses of each other |
| SceneTransform.CopyAssignThenRead | MAGE/Core/src/scene/transform.hpp:86-90 | after copy assignment, self-assignment included, the target's world matrix is rebuilt from the source's local transform for the target's own owner |
| SceneTransform.Transform.GetTranslation | MAGE/Core/src/scene/transform.hpp:310-312 | returns the stored translation of the local transform unchanged |
| SceneTransform.Transform.GetRotation | MAGE/Core/src/scene/transform.hpp:676-678 | returns the stored rotation of the local transform unchanged |
| SceneTransform.Transform.GetScale | MAGE/Core/src/scene/transform.hpp:952-954 | returns the stored scale of the local transform unchanged |
| SceneTransform.Transform.GetObjectOrigin | MAGE/Core/src/scene/transform.hpp:995-997 | the object-space origin is the homogeneous point (0, 0, 0, 1), whatever the state |
| SceneTransform.Transform.GetObjectAxisX | MAGE/Core/src/scene/transform.hpp:1007-1009 | the object-space x-axis is the unit direction (w = 0) along +x, whatever the state |
| SceneTransform.Transform.GetObjectAxisY | MAGE/Core/src/scene/transform.hpp:1019-1021 | the object-space y-axis is the unit direction (w = 0) along +y, whatever the state |
| SceneTransform.Transform.GetObjectAxisZ | MAGE/Core/src/scene/transform.hpp:1031-1033 | the object-space z-axis is the unit direction (w = 0) along +z, whatever the state |
| Rendering.Renderer.constructor | MAGE/Code/Engine/Rendering/renderer/renderer.cpp:284-312 | a new renderer holds the display configuration it was given and has issued no call yet |
| Rendering.Renderer.Render | MAGE/Code/Engine/Rendering/renderer/renderer.cpp:380-421 | a frame issues the buffer updates, binds the world buffer, begins the output manager, renders every Active camera in storage order, then binds the GUI, sets the maximum viewport, draws sprites, ends and copies to the back buffer; what that sequence guarantees is stated by FrameBrackets, FrameForwardPhases and FrameCoverage |
| Rendering.Renderer.RenderCameras | MAGE/Code/Engine/Rendering/renderer/renderer.cpp:390-397 | the camera loop appends, camera by camera, the calls of exactly the Active cameras and nothing for the others |
| Rendering.Renderer.RenderIfActive | MAGE/Code/Engine/Rendering/renderer/renderer.cpp:391-396 | a camera that is not Active adds no call; an Active one adds its full camera sequence |
| Rendering.Renderer.UpdateBuffers | MAGE/Code/Engine/Rendering/renderer/renderer.cpp:423-442 | the world buffer is updated first, then the buffer of each Active camera, then the buffer of each Active model, in storage order |
| Rendering.Renderer.RenderCamera | MAGE/Code/Engine/Rendering/renderer/renderer.cpp:493-653 | one camera binds its camera buffer and viewport, runs the render-mode branch, the overlay layers, closes the forward phase, then the AA step and post-processing |
| Rendering.Renderer.RenderModeBranch | MAGE/Code/Engine/Rendering/renderer/renderer.cpp:512-629 | the render-mode switch runs the forward, deferred, solid, false-colour or voxel-grid branch for the camera's mode, and the AA viewport plus forward phase opening for any other mode |
| Rendering.Renderer.RenderLayers | MAGE/Code/Engine/Rendering/renderer/renderer.cpp:634-640 | the wireframe overlay runs iff its layer is set, then the bounding-volume overlay iff its layer is set |
| Rendering.Renderer.RenderForward | MAGE/Code/Engine/Rendering/renderer/renderer.cpp:655-712 | the forward branch issues the light buffer, voxelization and depth pass only with VCT, opens the forward phase, then opaque, sky and transparent drawing |
| Rendering.Renderer.RenderDeferred | MAGE/Code/Engine/Rendering/renderer/renderer.cpp:714-782 | the deferred branch fills the G-buffer, shades by the MSAA render path iff MSAA is on and by the compute dispatch otherwise, then opens the forward phase for emissive, sky and transparent drawing |
| Rendering.Renderer.RenderSolid | MAGE/Code/Engine/Rendering/renderer/renderer.cpp:784-802 | the solid branch issues the light buffer, binds the AA viewport and opens the forward phase for the solid pass, with no voxelization |
| Rendering.Renderer.RenderFalseColor | MAGE/Code/Engine/Rendering/renderer/renderer.cpp:804-818 | the false-colour branch binds the AA viewport and opens the forward phase for the false-colour pass of the given kind, with no light buffer |
| Rendering.Renderer.RenderVoxelGrid | MAGE/Code/Engine/Rendering/renderer/renderer.cpp:820-849 | the voxel-grid branch issues the light buffer and voxelization, binds the AA viewport, opens the forward phase and draws the voxel grid |
| Rendering.Renderer.RenderPostProcessing | MAGE/Code/Engine/Rendering/renderer/renderer.cpp:851-874 | post-processing runs depth of field (with one ping-pong swap) iff the lens has a finite aperture and always ends with the LDR dispatch |
| Rendering.Renderer.RenderAA | MAGE/Code/Engine/Rendering/renderer/renderer.cpp:876-920 | the AA step issues nothing without AA; FXAA opens the resolve phase, preprocesses, closes it, swaps ping-pong and then dispatches; MSAA and SSAA dispatch between opening and closing the resolve phase |
| RenderingProperties.ForwardShape | MAGE/Code/Engine/Rendering/renderer/renderer.cpp:655-712 | the forward branch issues only mode-level calls, always the light buffer, and voxelization and the depth pass iff the camera uses voxel cone tracing |
| RenderingProperties.ForwardOrder | MAGE/Code/Engine/Rendering/renderer/renderer.cpp:655-712 | in the forward branch the light buffer precedes the forward phase opening, which precedes opaque drawing (after the depth pass with VCT), then sky, then transparent drawing |
| RenderingProperties.ForwardChain | MAGE/Code/Engine/Rendering/renderer/renderer.cpp:655-712 | the forward-branch order follows from the positions at which its calls are issued |
| RenderingProperties.DeferredShape | MAGE/Code/Engine/Rendering/renderer/renderer.cpp:714-782 | the deferred branch issues only mode-level calls |
| RenderingProperties.DeferredPasses | MAGE/Code/Engine/Rendering/renderer/renderer.cpp:714-782 | the deferred branch always runs the light buffer, voxelization iff VCT, the MSAA render shading iff MSAA is on and the compute dispatch shading iff it is off |
| RenderingProperties.DeferredGBufferOrder | MAGE/Code/Engine/Rendering/renderer/renderer.cpp:714-782 | the deferred branch runs the light buffer, opens the G-buffer, fills it, closes it, opens the deferred phase and shades, in that order |
| RenderingProperties.DeferredShadeOrder | MAGE/Code/Engine/Rendering/renderer/renderer.cpp:714-782 | after shading the deferred branch closes the deferred phase, opens the forward phase, draws emissive, then sky, then transparent |
| RenderingProperties.GBufferChain | MAGE/Code/Engine/Rendering/renderer/renderer.cpp:724-762 | the G-buffer part of the deferred order follows from the positions of its calls |
| RenderingProperties.ShadeChain | MAGE/Code/Engine/Rendering/renderer/renderer.cpp:754-782 | the shading part of the deferred order follows from the positions of its calls |
| RenderingProperties.OtherBranches | MAGE/Code/Engine/Rendering/renderer/renderer.cpp:620-627 | the solid, voxel-grid, false-colour and default branches issue only mode-level calls; solid and voxel-grid run the light buffer, only voxel-grid voxelizes, false-colour and default run neither |
| RenderingProperties.ModeEventsShape | MAGE/Code/Engine/Rendering/renderer/renderer.cpp:512-629 | whatever the render mode, the switch issues only mode-level calls |
| RenderingProperties.ForwardOpensOnce | MAGE/Code/Engine/Rendering/renderer/renderer.cpp:655-712 | the forward branch opens the forward phase exactly once |
| RenderingProperties.DeferredOpensOnce | MAGE/Code/Engine/Rendering/renderer/renderer.cpp:714-782 | the deferred branch opens the forward phase exactly once |
| RenderingProperties.OtherBranchesOpenOnce | MAGE/Code/Engine/Rendering/renderer/renderer.cpp:784-849 | the solid, voxel-grid, false-colour and default branches each open the forward phase exactly once |
| RenderingProperties.ModeOpensForwardOnce | MAGE/Code/Engine/Rendering/renderer/renderer.cpp:512-629 | every branch of the render-mode switch, the default included, opens the forward phase exactly once |
| RenderingProperties.FXAAOrder | MAGE/Code/Engine/Rendering/renderer/renderer.cpp:881-899 | with FXAA the preprocess comes before the resolve phase closes, the close before the ping-pong swap, and the swap before the dispatch |
| RenderingProperties.FXAACounts | MAGE/Code/Engine/Rendering/renderer/renderer.cpp:881-899 | with FXAA the resolve phase is closed exactly once and the FXAA dispatch is issued exactly once |
| RenderingProperties.ResolveOrder | MAGE/Code/Engine/Rendering/renderer/renderer.cpp:902-916 | with MSAA or SSAA the dispatch comes after the resolve phase opens and before it closes |
| RenderingProperties.ResolveCounts | MAGE/Code/Engine/Rendering/renderer/renderer.cpp:902-916 | with MSAA or SSAA the resolve phase is closed exactly once and the configured AA is dispatched exactly once |
| RenderingProperties.AAOrder | MAGE/Code/Engine/Rendering/renderer/renderer.cpp:876-920 | FXAA dispatches after closing the resolve phase and swapping ping-pong; MSAA and SSAA dispatch inside the resolve phase |
| RenderingProperties.AACounts | MAGE/Code/Engine/Rendering/renderer/renderer.cpp:876-920 | the resolve phase is closed, and the configured AA dispatched, exactly once with AA and never without |
| RenderingProperties.AAStepShape | MAGE/Code/Engine/Rendering/renderer/renderer.cpp:876-920 | the AA step is empty iff AA is off; otherwise it opens the resolve phase first, closes it once and dispatches once; it preprocesses iff AA is FXAA |
| RenderingProperties.AASteps | MAGE/Code/Engine/Rendering/renderer/renderer.cpp:876-920 | the AA step is empty iff AA is off; otherwise it opens the resolve phase first, closes it once and dispatches once; FXAA preprocesses, closes, swaps ping-pong and only then dispatches, while MSAA and SSAA dispatch inside the resolve phase; it preprocesses iff AA is FXAA |
| RenderingProperties.AAPingPong | MAGE/Code/Engine/Rendering/renderer/renderer.cpp:876-920 | only FXAA swaps the ping-pong buffers, exactly once, and the AA step never runs depth of field |
| RenderingProperties.AAShape | MAGE/Code/Engine/Rendering/renderer/renderer.cpp:876-920 | the AA step issues only resolve and post-processing calls |
| RenderingProperties.PostProcessingShape | MAGE/Code/Engine/Rendering/renderer/renderer.cpp:851-874 | post-processing issues only resolve and post-processing calls, ends with the LDR dispatch, runs depth of field iff the aperture is finite and swaps ping-pong once then, never otherwise |
| RenderingProperties.CameraBrackets | MAGE/Code/Engine/Rendering/renderer/renderer.cpp:493-653 | one camera starts with its camera buffer and viewport, ends with the LDR dispatch, issues no frame-level call and binds no other camera's buffer |
| RenderingProperties.CameraForwardPhase | MAGE/Code/Engine/Rendering/renderer/renderer.cpp:493-653 | one camera opens the forward phase exactly once and closes it exactly once, opening before closing |
| RenderingProperties.CameraOverlays | MAGE/Code/Engine/Rendering/renderer/renderer.cpp:634-640 | the wireframe and bounding-volume overlays run iff their layers are set, inside the forward phase, the wireframe first |
| RenderingProperties.CameraPingPong | MAGE/Code/Engine/Rendering/renderer/renderer.cpp:493-653 | for one camera depth of field runs iff the aperture is finite, and the ping-pong swaps are those of FXAA plus one for depth of field |
| RenderingProperties.CamerasEventsCover | MAGE/Code/Engine/Rendering/renderer/renderer.cpp:390-397 | the camera loop issues no frame-level call, binds the buffer of exactly the Active cameras, and opens and closes the forward phase once per Active camera |
| RenderingProperties.CameraUpdatesCover | MAGE/Code/Engine/Rendering/renderer/renderer.cpp:428-433 | the camera buffer updates are issued for exactly the Active cameras |
| RenderingProperties.ModelUpdatesCover | MAGE/Code/Engine/Rendering/renderer/renderer.cpp:436-441 | the model buffer updates are issued for exactly the Active models |
| RenderingProperties.FrameBrackets | MAGE/Code/Engine/Rendering/renderer/renderer.cpp:380-421 | a frame starts with the world buffer update, ends with the back-buffer pass, begins, binds the GUI and ends the output manager exactly once each and in that order |
| RenderingProperties.FrameForwardPhases | MAGE/Code/Engine/Rendering/renderer/renderer.cpp:380-421 | within a frame the forward phase is opened once per Active camera |
| RenderingProperties.FrameCoverage | MAGE/Code/Engine/Rendering/renderer/renderer.cpp:380-442 | within a frame a camera is rendered and its buffer updated iff it is Active, and a model buffer is updated iff the model is Active |
| DepthPasses.ModelEventsDraw | MAGE/MAGE/src/rendering/pass/depth_pass.cpp:171-213 | rendering one model issues only per-model calls, and draws that model iff its box is not culled against object-to-world times world-to-projection, never any other model |
| DepthPasses.PhaseIsModelLevel | MAGE/MAGE/src/rendering/pass/depth_pass.cpp:91-98 | a model loop issues only per-model calls (no shader, camera or state binding) |
| DepthPasses.PhaseDraws | MAGE/MAGE/src/rendering/pass/depth_pass.cpp:91-119 | a model loop draws a model id iff some model with that id passes the phase's filter and is not culled |
| DepthPasses.RenderLayout | MAGE/MAGE/src/rendering/pass/depth_pass.cpp:75-120 | Render binds the camera, then the opaque vertex shader with no pixel shader, the opaque loop, then the transparent vertex and pixel shaders, then the transparent loop |
| DepthPasses.RenderOpaqueDraws | MAGE/MAGE/src/rendering/pass/depth_pass.cpp:88-98 | in the opaque part a model is drawn iff it is Active, not transparent (and an occluder for RenderOccluders) and not culled |
| DepthPasses.RenderTransparentDraws | MAGE/MAGE/src/rendering/pass/depth_pass.cpp:105-119 | in the transparent part a model is drawn iff it is Active, transparent, has a base-colour alpha not below the shadow threshold (and is an occluder for RenderOccluders) and is not culled |
| DepthPasses.OccludersAreRendered | MAGE/MAGE/src/rendering/pass/depth_pass.cpp:122-169 | every model RenderOccluders draws in a phase is also drawn by Render in that phase |
| DepthPasses.DepthPassComparison | MAGE/MAGE/src/rendering/pass/depth_pass.cpp:55-59 | the fixed depth test keeps the larger depth (inverted Z-buffer) iff DISABLE_INVERTED_Z_BUFFER is not defined |
| DepthPasses.DepthPass.constructor | MAGE/MAGE/src/rendering/pass/depth_pass.cpp:20-25 | a new pass has the given transparency shadow threshold and has issued no call |
| DepthPasses.DepthPass.BindOpaqueShaders | MAGE/MAGE/src/rendering/pass/depth_pass.cpp:31-36 | binds the opaque depth vertex shader and no pixel shader |
| DepthPasses.DepthPass.BindTransparentShaders | MAGE/MAGE/src/rendering/pass/depth_pass.cpp:38-43 | binds the transparent depth vertex shader and its alpha-clipping pixel shader |
| DepthPasses.DepthPass.BindFixedState | MAGE/MAGE/src/rendering/pass/depth_pass.cpp:45-60 | unbinds the hull, domain and geometry shaders, binds counter-clockwise culling and the read-write depth state of DepthPassComparison |
| DepthPasses.DepthPass.BindCamera | MAGE/MAGE/src/rendering/pass/depth_pass.cpp:62-73 | binds one camera buffer holding the transposed world-to-camera and camera-to-projection matrices |
| DepthPasses.DepthPass.Render | MAGE/MAGE/src/rendering/pass/depth_pass.cpp:75-120 | issues the calls of RenderEvents for all models, whose meaning RenderLayout, RenderOpaqueDraws and RenderTransparentDraws state |
| DepthPasses.DepthPass.RenderOccluders | MAGE/MAGE/src/rendering/pass/depth_pass.cpp:122-169 | issues the calls of RenderEvents restricted to the models that occlude light |
| DepthPasses.DepthPass.RenderScene | MAGE/MAGE/src/rendering/pass/depth_pass.cpp:75-169 | the body common to Render and RenderOccluders issues the calls of RenderEvents for the given occluder filter |
| DepthPasses.DepthPass.ProcessModels | MAGE/MAGE/src/rendering/pass/depth_pass.cpp:91-98 | the model loop appends, model by model, the calls of exactly the models that pass the phase's filter |
| DepthPasses.DepthPass.RenderOpaque | MAGE/MAGE/src/rendering/pass/depth_pass.cpp:171-189 | binds the model buffer to the vertex stage, the mesh, and draws, unless the box is culled |
| DepthPasses.DepthPass.RenderTransparent | MAGE/MAGE/src/rendering/pass/depth_pass.cpp:191-213 | binds the model buffer to the vertex and pixel stages, the base-colour SRV, the mesh, and draws, unless the box is culled |
| BoundingVolumePasses.Diagonal | MAGE/MAGE/src/rendering/pass/bounding_volume_pass.cpp:125 | the diagonal of a box is the vector that takes its minimum corner to its maximum corner |
| BoundingVolumePasses.Centroid | MAGE/MAGE/src/rendering/pass/bounding_volume_pass.cpp:126 | the centroid lies half a diagonal from either corner of the box |
| BoundingVolumePasses.DrawPairsAppend | MAGE/MAGE/src/rendering/pass/bounding_volume_pass.cpp:108-195 | joining two runs of box-matrix-then-draw pairs gives a run of as many pairs as both together |
| BoundingVolumePasses.OmniDrawPairs | MAGE/MAGE/src/rendering/pass/bounding_volume_pass.cpp:108-135 | the omni light loop issues exactly one box matrix followed by one 24-vertex line-cube draw per omni light that is Active and whose bounding sphere is not culled |
| BoundingVolumePasses.BoxDrawPairs | MAGE/MAGE/src/rendering/pass/bounding_volume_pass.cpp:137-163 | the spot light loop and the model loop issue exactly one box matrix and one line-cube draw per Active node whose box is not culled |
| BoundingVolumePasses.RenderShape | MAGE/MAGE/src/rendering/pass/bounding_volume_pass.cpp:99-196 | Render binds the light colour first, draws one cube per visible light, then binds the model colour once and draws one cube per visible model |
| BoundingVolumePasses.BoundingVolumeComparisonAsWritten | MAGE/MAGE/src/rendering/pass/bounding_volume_pass.cpp:90-94 | as written, the depth test keeps the larger depth iff DISSABLE_INVERTED_Z_BUFFER is undefined, whatever DISABLE_INVERTED_Z_BUFFER says |
| BoundingVolumePasses.ComparisonMismatchAsWritten | MAGE/MAGE/src/rendering/pass/bounding_volume_pass.cpp:90-94 | with DISABLE_INVERTED_Z_BUFFER defined, the pass as written still keeps the larger depth while the depth pass keeps the smaller one |
| BoundingVolumePasses.BoundingVolumeComparison | MAGE/MAGE/src/rendering/pass/bounding_volume_pass.cpp:89-94 | the corrected depth test keeps the larger depth iff the depth pass's does, for every macro setting |
| BoundingVolumePasses.BoundingVolumePass.constructor | MAGE/MAGE/src/rendering/pass/bounding_volume_pass.cpp:26-31 | a new pass has issued no call |
| BoundingVolumePasses.BoundingVolumePass.BindColorData | MAGE/MAGE/src/rendering/pass/bounding_volume_pass.cpp:38-44 | binds one colour buffer holding the given colour |
| BoundingVolumePasses.BoundingVolumePass.BindLightColorData | MAGE/MAGE/src/rendering/pass/bounding_volume_pass.cpp:46-52 | binds the light colour, opaque red |
| BoundingVolumePasses.BoundingVolumePass.BindModelColorData | MAGE/MAGE/src/rendering/pass/bounding_volume_pass.cpp:54-60 | binds the model colour, opaque green |
| BoundingVolumePasses.BoundingVolumePass.BindFixedState | MAGE/MAGE/src/rendering/pass/bounding_volume_pass.cpp:73-97 | binds the line-list topology, the line-cube shaders, no hull, domain or geometry shader, wireframe rasterization, the depth test as written (BoundingVolumeComparisonAsWritten, which follows the misspelled macro) and opaque blending |
| BoundingVolumePasses.BoundingVolumePass.Render | MAGE/MAGE/src/rendering/pass/bounding_volume_pass.cpp:99-196 | issues the calls of RenderEvents, whose shape RenderShape states |
| BoundingVolumePasses.BoundingVolumePass.ProcessOmniLights | MAGE/MAGE/src/rendering/pass/bounding_volume_pass.cpp:108-135 | the omni light loop appends, light by light, the cube of each Active, unculled light |
| BoundingVolumePasses.BoundingVolumePass.ProcessBoxes | MAGE/MAGE/src/rendering/pass/bounding_volume_pass.cpp:137-195 | the spot light and model loops append, node by node, the cube of each Active node whose box is not culled |
| BoundingVolumePasses.BoundingVolumePass.DrawBox | MAGE/MAGE/src/rendering/pass/bounding_volume_pass.cpp:122-134 | binds the transposed box-to-view matrix (box transform, then object-to-world, then world-to-view) and draws the 24-vertex line cube |
| BoundingVolumePasses.BoxTransformMatrix | MAGE/MAGE/src/rendering/pass/bounding_volume_pass.cpp:124-126 | a default transform given the box's diagonal as scale and its centroid as translation has the object-to-parent matrix of that scale and translation with no rotation |
| ShadingNormalPasses.ModelStepShaders | MAGE/MAGE/src/pass/shading_normal_pass.cpp:34-57 | one model binds a pixel shader exactly when it is not culled and its material's shader differs from the cached one, and then binds only that shader |
| ShadingNormalPasses.NoRedundantBinds | MAGE/MAGE/src/pass/shading_normal_pass.cpp:34-39 | over a model loop the cache never binds the same pixel shader twice in a row, the first bind differs from the shader cached before, and the cache ends at the last shader bound |
| ShadingNormalPasses.StepKeepsCache | MAGE/MAGE/src/pass/shading_normal_pass.cpp:34-57 | after one model the cached index still names the pixel shader in effect |
| ShadingNormalPasses.StepDrawMatches | MAGE/MAGE/src/pass/shading_normal_pass.cpp:127-152 | the draw of one model happens with the pixel shader its material calls for in effect |
| ShadingNormalPasses.CacheStaysRight | MAGE/MAGE/src/pass/shading_normal_pass.cpp:122-153 | after a model loop the cached index still names the pixel shader in effect |
| ShadingNormalPasses.DrawsUseTheirShader | MAGE/MAGE/src/pass/shading_normal_pass.cpp:122-153 | every draw of a model loop happens with the shader its model's material calls for: the TSNM shader iff the mode is TSNM and the material has a normal map |
| ShadingNormalPasses.RenderDrawsUseTheirShader | MAGE/MAGE/src/pass/shading_normal_pass.cpp:85-120 | within Render, after the cache reset, every draw of an opaque or a transparent model happens with the shader its material calls for |
| ShadingNormalPasses.StepEvents | MAGE/MAGE/src/pass/shading_normal_pass.cpp:127-152 | one model binds only its model data, shaders and normal map, its mesh and draws only itself, unless culled |
| ShadingNormalPasses.ModelsAreModelLevel | MAGE/MAGE/src/pass/shading_normal_pass.cpp:122-153 | a model loop binds only model data, shaders, normal maps and meshes and issues draws |
| ShadingNormalPasses.ModelsDrawn | MAGE/MAGE/src/pass/shading_normal_pass.cpp:127-138 | a model loop draws a model id iff some model with that id is not culled |
| ShadingNormalPasses.RenderBindsSampler | MAGE/MAGE/src/pass/shading_normal_pass.cpp:102-106 | Render binds the linear-wrap sampler iff the render mode is not ShadingNormal |
| ShadingNormalPasses.RenderDraws | MAGE/MAGE/src/pass/shading_normal_pass.cpp:116-119 | Render draws, after its fixed state, exactly the unculled opaque models and then exactly the unculled transparent ones |
| ShadingNormalPasses.ShadingNormalPass.constructor | MAGE/MAGE/src/pass/shading_normal_pass.cpp:22-28 | a new pass has no render mode, no pixel shader bound and has issued no call |
| ShadingNormalPasses.ShadingNormalPass.BindPS | MAGE/MAGE/src/pass/shading_normal_pass.cpp:34-39 | binds the shader of the given index only if it is not the cached one, and caches the index |
| ShadingNormalPasses.ShadingNormalPass.BindMaterialPS | MAGE/MAGE/src/pass/shading_normal_pass.cpp:41-57 | binds the TSNM shader and the normal map when the mode is TSNM and the material has one, the plain shader otherwise |
| ShadingNormalPasses.ShadingNormalPass.Render | MAGE/MAGE/src/pass/shading_normal_pass.cpp:85-120 | takes the camera's render mode and issues the calls of RenderOutcome, leaving the cache at its final index |
| ShadingNormalPasses.ShadingNormalPass.BindHead | MAGE/MAGE/src/pass/shading_normal_pass.cpp:89-116 | sets the mode, resets the cache, binds the fixed state, the sampler unless the mode is ShadingNormal, and the transposed view-to-projection matrix |
| ShadingNormalPasses.ShadingNormalPass.ProcessModels | MAGE/MAGE/src/pass/shading_normal_pass.cpp:122-153 | the model loop appends, model by model, the calls of every unculled model and updates the cache as it goes |
| ShadingNormalPasses.ShadingNormalPass.ProcessModel | MAGE/MAGE/src/pass/shading_normal_pass.cpp:129-151 | one model: nothing if culled, otherwise its model data (object-to-view transposed, world-to-object, identity texture transform), its shader, its mesh and its draw |
| Worlds.FirstWhere | MAGE/MAGE/src/world/world.cpp:35-40 | the position of the first element that matches, or the length when none does: nothing before it matches and the element at it does |
| Worlds.FirstWhereIs | MAGE/MAGE/src/world/world.cpp:35-40 | a position with no match before it and a match at it, or at the end with no match at all, is the first match |
| Worlds.RemoveFirst | MAGE/MAGE/src/world/world.cpp:50-61 | removing the first match shortens the list by exactly one iff some element matches, and brings in no element that was not there |
| Worlds.RemoveFirstWithoutMatch | MAGE/MAGE/src/world/world.cpp:50-61 | when no element matches, removal leaves the list unchanged |
| Worlds.RemoveFirstKeepsOrder | MAGE/MAGE/src/world/world.cpp:50-61 | when some element matches, removal takes out only the first match, shortens the list by one and keeps the others in order |
| Worlds.RemoveFirstMultiset | MAGE/MAGE/src/world/world.cpp:50-61 | removal takes exactly one copy of the first match out of the multiset of elements |
| Worlds.Model.constructor | MAGE/MAGE/src/world/world.cpp:36 | a model is reduced to the name the world compares when it looks one up, and keeps the name it was given |
| Worlds.PointLight.constructor | MAGE/MAGE/src/world/world.cpp:81 | a light is reduced to the name the world compares when it looks one up, and keeps the name it was given |
| Worlds.World.constructor | MAGE/MAGE/src/world/world.cpp:16-17 | a new world has no models and no lights |
| Worlds.World.GetModel | MAGE/MAGE/src/world/world.cpp:34-41 | returns the first model with the given name, or null when there is none |
| Worlds.World.HasModel | MAGE/MAGE/src/world/world.cpp:42-49 | true iff that same object occurs in the model list |
| Worlds.World.RemoveModel | MAGE/MAGE/src/world/world.cpp:50-61 | removes the first model with the given name and only it, keeping the order of the rest and the light list |
| Worlds.World.RemoveModelPointer | MAGE/MAGE/src/world/world.cpp:62-73 | removes the first occurrence of that same object and only it, keeping the order of the rest and the light list |
| Worlds.World.GetLight | MAGE/MAGE/src/world/world.cpp:79-86 | returns the first light with the given name, or null when there is none |
| Worlds.World.HasLight | MAGE/MAGE/src/world/world.cpp:87-94 | true iff that same object occurs in the light list |
| Worlds.World.RemoveLight | MAGE/MAGE/src/world/world.cpp:95-106 | removes the first light with the given name and only it, keeping the order of the rest and the model list |
| Worlds.World.RemoveLightPointer | MAGE/MAGE/src/world/world.cpp:107-118 | removes the first occurrence of that same object and only it, keeping the order of the rest and the model list |
| SpriteFonts.SortedMonotone | MAGE/MAGE/src/sprite/font/sprite_font.cpp:125-130 | glyphs that std::is_sorted accepts under the glyph order have non-decreasing characters |
| SpriteFonts.LowerBound | MAGE/MAGE/src/sprite/font/sprite_font.cpp:345-349 | the binary search returns the position that splits the glyphs into those whose character is less than c and those whose character is not |
| SpriteFonts.FoundAtLowerBound | MAGE/MAGE/src/sprite/font/sprite_font.cpp:338-353 | a sorted font contains c iff the glyph at the lower bound has character c |
| SpriteFonts.FindGlyph | MAGE/MAGE/src/sprite/font/sprite_font.cpp:345-359 | a contained character yields its first glyph; otherwise the default glyph when there is one, else the not-found error |
| SpriteFonts.HasCharacter | MAGE/MAGE/src/sprite/font/sprite_font.cpp:338-343 | the binary search answers true iff some glyph has the character |
| SpriteFonts.ContainedCharactersAreFound | MAGE/MAGE/src/sprite/font/sprite_font.cpp:338-359 | a character the font contains is found without the fallback; any other is found iff there is a default glyph |
| SpriteFonts.LettersOf | MAGE/MAGE/src/sprite/font/sprite_font.cpp:175-176 | a string yields one letter per character, carrying the string's colour |
| SpriteFonts.RunSnoc | MAGE/MAGE/src/sprite/font/sprite_font.cpp:175-227 | the layout of a text with one more character is one step from the layout of the text |
| SpriteFonts.LettersSnoc | MAGE/MAGE/src/sprite/font/sprite_font.cpp:175-176 | the letters of one more string are the letters so far followed by that string's letters |
| SpriteFonts.LettersPrefix | MAGE/MAGE/src/sprite/font/sprite_font.cpp:175-176 | the letters of the first strings are a prefix of the letters of all strings |
| SpriteFonts.NextLetter | MAGE/MAGE/src/sprite/font/sprite_font.cpp:176 | moving on by one character within a string appends exactly that character with its string's colour |
| SpriteFonts.StringBounds | MAGE/MAGE/src/sprite/font/sprite_font.cpp:175-176 | before the first character of a string come the letters of the earlier strings; after its last come those of it as well |
| SpriteFonts.FailureReachesEnd | MAGE/MAGE/src/sprite/font/sprite_font.cpp:345-358 | a failed glyph lookup anywhere in the text is the outcome of the whole text |
| SpriteFonts.FailureStays | MAGE/MAGE/src/sprite/font/sprite_font.cpp:355-356 | once a lookup has failed, further characters change nothing |
| SpriteFonts.LineControls | MAGE/MAGE/src/sprite/font/sprite_font.cpp:179-187 | a carriage return changes nothing; a line feed moves the pen to x = 0 and one line spacing down and draws nothing |
| SpriteFonts.GlyphAdvance | MAGE/MAGE/src/sprite/font/sprite_font.cpp:189-222 | any other character moves the pen to the right of max(0, pen + offset) by the glyph width plus its advance, on the same line |
| SpriteFonts.ExtentNonNegative | MAGE/MAGE/src/sprite/font/sprite_font.cpp:233-319 | the measured size never goes below zero, nor do the right and bottom of the bounds |
| SpriteFonts.StepDraws | MAGE/MAGE/src/sprite/font/sprite_font.cpp:195-219 | a character adds one draw when it shows, and otherwise leaves the draws, the size and the bounds unchanged |
| SpriteFonts.DrawsCountShowingCharacters | MAGE/MAGE/src/sprite/font/sprite_font.cpp:175-227 | DrawText draws exactly once per showing character; when none shows, the size stays zero and the bounds stay at their start |
| SpriteFonts.DrawsKeepContext | MAGE/MAGE/src/sprite/font/sprite_font.cpp:209-218 | every draw uses the given effects and transform apart from its rotation origin, and the colour override when one is given |
| SpriteFonts.NothingShows | MAGE/MAGE/src/sprite/font/sprite_font.cpp:233-333 | text in which nothing shows measures zero and is bounded by the empty rectangle at the origin |
| SpriteFonts.NoneShowing | MAGE/MAGE/src/sprite/font/sprite_font.cpp:195-310 | when no character shows none is counted |
| SpriteFonts.NoFailure | MAGE/MAGE/src/sprite/font/sprite_font.cpp:345-359 | when every lookup succeeds the layout does not fail |
| SpriteFonts.DefaultGlyphFor | MAGE/MAGE/src/sprite/font/sprite_font.cpp:133 | the default glyph is the glyph of the default character when the font has one, and none otherwise |
| SpriteFonts.SpriteFont.Empty | MAGE/MAGE/src/sprite/font/sprite_font.cpp:102-109 | the member initialisers: no glyphs, no default glyph, line spacing 0 |
| SpriteFonts.SpriteFont.InitializeSpriteFont | MAGE/MAGE/src/sprite/font/sprite_font.cpp:125-136 | takes the glyphs and fails with the not-sorted error iff they are not sorted; on success sets the line spacing and the default glyph |
| SpriteFonts.SpriteFont.SetLineSpacing | MAGE/MAGE/src/sprite/font/sprite_font.cpp:132 | sets the line spacing and nothing else |
| SpriteFonts.SpriteFont.SetDefaultCharacter | MAGE/MAGE/src/sprite/font/sprite_font.cpp:133 | sets the default glyph to DefaultGlyphFor of the character and nothing else |
| SpriteFonts.SpriteFont.GetGlyph | MAGE/MAGE/src/sprite/font/sprite_font.cpp:345-359 | the glyph lookup of FindGlyph |
| SpriteFonts.SpriteFont.ContainsCharacter | MAGE/MAGE/src/sprite/font/sprite_font.cpp:338-343 | true iff some glyph has the character |
| SpriteFonts.SpriteFont.MeasureCharacter | MAGE/MAGE/src/sprite/font/sprite_font.cpp:238-269 | one character of MeasureText's loop advances the layout exactly as one step of the text |
| SpriteFonts.SpriteFont.MeasureText | MAGE/MAGE/src/sprite/font/sprite_font.cpp:230-274 | returns the largest right and bottom any showing glyph reaches (bottom at least one line spacing below its line), or the lookup error |
| SpriteFonts.SpriteFont.BoundCharacter | MAGE/MAGE/src/sprite/font/sprite_font.cpp:291-326 | one character of MeasureDrawBounds's loop advances the layout exactly as one step of the text |
| SpriteFonts.SpriteFont.MeasureDrawBounds | MAGE/MAGE/src/sprite/font/sprite_font.cpp:276-336 | returns the truncated integer box around the showing glyphs, with left and top reset to 0 when none showed, or the lookup error |
| SpriteFonts.SpriteFont.DrawGlyph | MAGE/MAGE/src/sprite/font/sprite_font.cpp:195-219 | draws the glyph at the pen, mirrored and flipped by the effects, with the override or string colour, iff it shows |
| SpriteFonts.SpriteFont.DrawCharacter | MAGE/MAGE/src/sprite/font/sprite_font.cpp:176-225 | one character of DrawText's loop appends exactly the draws of one step of the text |
| SpriteFonts.SpriteFont.DrawContext | MAGE/MAGE/src/sprite/font/sprite_font.cpp:163-169 | the base offset is the rotation origin, less the measured text on the mirrored axes when there are effects |
| SpriteFonts.SpriteFont.DrawColorString | MAGE/MAGE/src/sprite/font/sprite_font.cpp:174-226 | one coloured string of DrawText appends the draws of the text up to and including that string, or, on a failed lookup, ends with the failure and draws of the whole text |
| SpriteFonts.SpriteFont.DrawText | MAGE/MAGE/src/sprite/font/sprite_font.cpp:138-228 | appends to the sprite batch exactly the draws of the text's layout and ends with its outcome, failing iff a glyph lookup fails |
| SpriteFonts.RunGrows | MAGE/MAGE/src/sprite/font/sprite_font.cpp:233-319 | the measured size and the draw bounds of a prefix of the text lie within those of the whole text: each character only enlarges them |
| SpriteFonts.StepShowing | MAGE/MAGE/src/sprite/font/sprite_font.cpp:251-262 | a showing glyph's step makes the size reach the glyph's right edge and line bottom, and the bounds cover the glyph's integer box |
| SpriteFonts.ShowingGlyphInside | MAGE/MAGE/src/sprite/font/sprite_font.cpp:233-319 | the measured size and the draw bounds of the whole text cover every glyph that shows, wherever it stands in the text |
| Common.ToU32 | MAGE/Code/Engine/Rendering/resource/font/glyph.hpp:87-89 | a value stored in a 32-bit unsigned integer is below 2^32 and unchanged when it already fits |
| Glyphs.GetWidth | MAGE/Code/Engine/Rendering/resource/font/glyph.hpp:87-89 | the width is right minus left when that fits a U32, and wraps around by 2^32 when the rectangle is inverted |
| Glyphs.GetHeight | MAGE/Code/Engine/Rendering/resource/font/glyph.hpp:97-99 | the height is bottom minus top when that fits a U32, and wraps around by 2^32 when the rectangle is inverted |
| Glyphs.Less | MAGE/Code/Engine/Rendering/resource/font/glyph.hpp:111-113 | one glyph is below another iff its character code is smaller; a glyph is never below itself |
| Glyphs.LessThanCharacter | MAGE/Code/Engine/Rendering/resource/font/glyph.hpp:125-127 | a glyph is below a character iff its character code is smaller than the character's code; a glyph whose code lies above every Unicode scalar value is below no character |
| Glyphs.CharacterLessThan | MAGE/MAGE/src/sprite/font/sprite_font.cpp:86-88 | a character is below a glyph iff its code is smaller than the glyph's character code; every character is below a glyph whose code lies above every Unicode scalar value |
| Glyphs.LessIsStrictWeakOrder | MAGE/Code/Engine/Rendering/resource/font/glyph.hpp:111-113 | the glyph order is irreflexive, asymmetric and transitive, and two glyphs are equivalent iff they have the same character |
| Glyphs.CharacterComparisonsAgree | MAGE/Code/Engine/Rendering/resource/font/glyph.hpp:125-127 | comparing a glyph with a character is comparing it with any glyph of that character, on either side |
| Glyphs.InvertedRectangleWidth | MAGE/Code/Engine/Rendering/resource/font/glyph.hpp:87-89 | a rectangle whose right is one left of its left has the largest width a U32 holds |
| Sprites.AddTranslation | MAGE/MAGE/src/text/outline_sprite_text.cpp:46 | moving a sprite transform adds the vector to its translation and keeps its rotation origin |
| Sprites.AddTranslationX | MAGE/MAGE/src/text/outline_sprite_text.cpp:50 | moving along x alone is moving by (x, 0) |
| Sprites.AddTranslationY | MAGE/MAGE/src/text/outline_sprite_text.cpp:54 | moving along y alone is moving by (0, y) |
| Sprites.SpriteBatch.constructor | MAGE/MAGE/src/world/world.cpp:17 | the world creates its sprite batch empty: a new batch has recorded no draw (the batch is reduced to the trace of draws requested of it) |
| Sprites.SpriteBatch.Draw | MAGE/MAGE/src/sprite/font/sprite_font.cpp:214-218 | a draw is appended after those already recorded |
| SpriteImages.SpriteImage.constructor | MAGE/Rendering/src/scene/sprite/sprite_image.hpp:37 | a sprite image holds the transform, effects, base colour, region and texture it was given |
| SpriteImages.SpriteImage.SetSpriteEffects | MAGE/Rendering/src/scene/sprite/sprite_image.hpp:144-146 | sets the effects, which the getter then returns, and nothing else |
| SpriteImages.SpriteImage.HasMaximumBaseColorTextureRegion | MAGE/Rendering/src/scene/sprite/sprite_image.hpp:193-198 | true iff all four sides of the region are 0 |
| SpriteImages.SpriteImage.SetMaximumBaseColorTextureRegion | MAGE/Rendering/src/scene/sprite/sprite_image.hpp:204-206 | afterwards the region is the whole texture; nothing else changes |
| SpriteImages.SpriteImage.SetBaseColorTextureRegion | MAGE/Rendering/src/scene/sprite/sprite_image.hpp:215-217 | sets the region, which counts as the whole texture iff it is all zeros; nothing else changes |
| SpriteImages.SpriteImage.GetBaseColorSRV | MAGE/Rendering/src/scene/sprite/sprite_image.hpp:240-242 | the view of the texture, and none when there is no texture |
| SpriteImages.SpriteImage.SetBaseColorTexture | MAGE/Rendering/src/scene/sprite/sprite_image.hpp:251-253 | sets the texture, and without a texture the view is none; nothing else changes |
| SpriteTexts.SpriteText.constructor | MAGE/Code/Engine/Rendering/scene/sprite/sprite_text.hpp:53 | a sprite text holds the given font and effects, with no strings and no text effect |
| SpriteTexts.SpriteText.SetSpriteEffects | MAGE/Code/Engine/Rendering/scene/sprite/sprite_text.hpp:160-162 | sets the effects and nothing else |
| SpriteTexts.SpriteText.ClearText | MAGE/Code/Engine/Rendering/scene/sprite/sprite_text.hpp:171-173 | empties the strings and changes nothing else |
| SpriteTexts.SpriteText.AppendText | MAGE/Code/Engine/Rendering/scene/sprite/sprite_text.hpp:214-216 | adds the string last and keeps the earlier strings and every other field |
| SpriteTexts.SpriteText.SetText | MAGE/Code/Engine/Rendering/scene/sprite/sprite_text.hpp:192-195 | leaves exactly the one given string and changes nothing else |
| SpriteTexts.SpriteText.SetTextEffect | MAGE/Code/Engine/Rendering/scene/sprite/sprite_text.hpp:296-298 | sets the text effect and nothing else |
| SpriteTexts.SpriteText.SetFont | MAGE/Code/Engine/Rendering/scene/sprite/sprite_text.hpp:331-333 | sets the font and nothing else |
| SpriteTexts.ClearThenAppend | MAGE/Code/Engine/Rendering/scene/sprite/sprite_text.hpp:171-216 | clearing and then appending two strings leaves exactly those two, in order |
| OutlineSpriteTexts.PlainText | MAGE/MAGE/src/text/outline_sprite_text.cpp:40 | the plain text has one character per letter of the coloured strings |
| OutlineSpriteTexts.OutlineSpriteText.constructor | MAGE/MAGE/src/text/outline_sprite_text.cpp:15-18 | an outlined text holds the border colour and effects it was given and no strings |
| OutlineSpriteTexts.OutlineSpriteText.Draw | MAGE/MAGE/src/text/outline_sprite_text.cpp:39-64 | five DrawString calls with the sprite's effects: four of the plain text in the border colour at offsets (+1,+1), (-1,+1), (-1,-1), (+1,-1) from the sprite's translation with its rotation origin, then the coloured strings with the sprite's own transform |
| SpriteImages.SpriteImage.GetSpriteEffects | MAGE/Rendering/src/scene/sprite/sprite_image.hpp:133-135 | returns the stored sprite effects unchanged |
| SpriteImages.SpriteImage.GetBaseColorTextureRegion | MAGE/Rendering/src/scene/sprite/sprite_image.hpp:180-182 | returns the stored texture region unchanged |
| SpriteImages.SpriteImage.GetBaseColorTexture | MAGE/Rendering/src/scene/sprite/sprite_image.hpp:226-228 | returns the stored base-colour texture, or none |
| SpriteTexts.SpriteText.GetSpriteEffects | MAGE/Code/Engine/Rendering/scene/sprite/sprite_text.hpp:149-151 | returns the stored sprite effects unchanged |
| SpriteTexts.SpriteText.GetText | MAGE/Code/Engine/Rendering/scene/sprite/sprite_text.hpp:182-184 | returns the stored strings, in order |
| SpriteTexts.SpriteText.GetTextEffect | MAGE/Code/Engine/Rendering/scene/sprite/sprite_text.hpp:286-288 | returns the stored text effect unchanged |
| SpriteTexts.SpriteText.GetFont | MAGE/Code/Engine/Rendering/scene/sprite/sprite_text.hpp:310-312 | returns the stored font unchanged |
| BinaryReaders.Offset | MAGE/Code/Engine/Utilities/io/binary_reader.cpp:106 | a pointer plus an offset is the exact sum when it stays below 2^64, and otherwise wraps to a smaller address |
| BinaryReaders.AdvanceExactly | MAGE/Code/Engine/Utilities/io/binary_reader.cpp:104-114 | with the cursor before its end, reading size characters succeeds iff at least size bytes are left, moves the position by exactly size, and otherwise fails with the end-of-file error when no wrap-around happened |
| BinaryReaders.AdvanceTwice | MAGE/Code/Engine/Utilities/io/binary_reader.cpp:104-114 | reading a and then b characters succeeds iff reading a + b at once does, and ends at the same position |
| BinaryReaders.BinaryReader.constructor | MAGE/Code/Engine/Utilities/io/binary_reader.cpp:61-66 | a new reader has an empty path, is big-endian, has null position and end, and holds no characters |
| BinaryReaders.BinaryReader.ContainsChars | MAGE/Code/Engine/Utilities/io/binary_reader.hpp:154-156 | true iff the position is before the end |
| BinaryReaders.BinaryReader.ReadFromMemory | MAGE/Code/Engine/Utilities/io/binary_reader.cpp:90-102 | sets the memory path, the endianness, the position to the start and the end to start plus size; fails with the overflow error iff that end wraps around |
| BinaryReaders.BinaryReader.ReadChars | MAGE/Code/Engine/Utilities/io/binary_reader.cpp:104-114 | succeeds iff at least size bytes are left, returning the old position and moving it size bytes on; on failure the position stays and the path, endianness and end never change |
| BinaryReaders.BigEndianBinaryReader.constructor | MAGE/Code/Engine/Utilities/io/binary_reader.cpp:123-127 | a new big-endian reader has an empty path, null position and end, and holds no characters |
| BinaryReaders.BigEndianBinaryReader.ContainsChars | MAGE/Code/Engine/Utilities/io/binary_reader.hpp:349-351 | true iff the position is before the end |
| BinaryReaders.BigEndianBinaryReader.ReadFromMemory | MAGE/Code/Engine/Utilities/io/binary_reader.cpp:151-160 | sets the memory path, the position to the start and the end to start plus size; fails with the overflow error iff that end wraps around |
| BinaryReaders.ReadAll | MAGE/Code/Engine/Utilities/io/binary_reader.cpp:90-114 | reading every byte of a memory input hands out its start, leaves no characters, and one more read then fails |
| BinaryReaders.BinaryReader.GetPath | MAGE/Code/Engine/Utilities/io/binary_reader.hpp:142-145 | returns the stored path unchanged |
| BinaryReaders.BigEndianBinaryReader.GetPath | MAGE/Code/Engine/Utilities/io/binary_reader.hpp:336-339 | returns the stored path unchanged |
| Lights.Spectrum | MAGE/Code/Engine/Rendering/scene/light/omni_light.hpp:135-137 | a scalar times a linear colour scales each channel by it |
| Lights.DepthProjection | MAGE/Code/Engine/Rendering/scene/light/omni_light.hpp:316-318 | the perspective depth entries exist iff the far and near planes differ |
| Lights.DepthRange | MAGE/Code/Engine/Rendering/scene/light/omni_light.hpp:312-326 | the light projection sends the near plane to depth 0 and the far plane to depth 1 |
| Lights.OmniLight.constructor | MAGE/Code/Engine/Rendering/scene/light/omni_light.hpp:36 | an omni light holds the base colour, clipping planes and shadow flag it was given and the absolute value of the intensity |
| Lights.OmniLight.GetIntensity | MAGE/Code/Engine/Rendering/scene/light/omni_light.hpp:147-149 | the intensity is never negative |
| Lights.OmniLight.SetIntensity | MAGE/Code/Engine/Rendering/scene/light/omni_light.hpp:158-160 | stores the absolute value of the intensity and nothing else |
| Lights.OmniLight.GetPower | MAGE/Code/Engine/Rendering/scene/light/omni_light.hpp:115-117 | the power is non-negative and is the intensity divided by 4 pi |
| Lights.OmniLight.SetPower | MAGE/Code/Engine/Rendering/scene/light/omni_light.hpp:125-127 | stores the intensity 4 pi times the absolute power, so the power read back is the absolute power |
| Lights.OmniLight.GetPowerSpectrum | MAGE/Code/Engine/Rendering/scene/light/omni_light.hpp:135-138 | the base colour scaled by the power |
| Lights.OmniLight.GetIntensitySpectrum | MAGE/Code/Engine/Rendering/scene/light/omni_light.hpp:168-171 | the base colour scaled by the intensity |
| Lights.OmniLight.SetBaseColor | MAGE/Code/Engine/Rendering/scene/light/omni_light.hpp:94-96 | writing through the base-colour reference changes the colour and nothing else |
| Lights.OmniLight.SetRange | MAGE/Code/Engine/Rendering/scene/light/omni_light.hpp:223-227 | sets the far clipping plane, which is the range, and keeps the near plane and every other field |
| Lights.OmniLight.SetClippingPlanes | MAGE/Code/Engine/Rendering/scene/light/omni_light.hpp:296-300 | sets both clipping planes, after which the range is the far one |
| Lights.OmniLight.UseShadows | MAGE/Code/Engine/Rendering/scene/light/omni_light.hpp:241-243 | true iff the shadow flag is set, the flag that SetShadows, EnableShadows, DissableShadows and ToggleShadows write |
| Lights.OmniLight.SetShadows | MAGE/Code/Engine/Rendering/scene/light/omni_light.hpp:273-275 | sets the shadow flag and nothing else |
| Lights.OmniLight.EnableShadows | MAGE/Code/Engine/Rendering/scene/light/omni_light.hpp:248-250 | turns shadows on and nothing else |
| Lights.OmniLight.DissableShadows | MAGE/Code/Engine/Rendering/scene/light/omni_light.hpp:255-257 | turns shadows off and nothing else |
| Lights.OmniLight.ToggleShadows | MAGE/Code/Engine/Rendering/scene/light/omni_light.hpp:262-264 | flips the shadow flag and nothing else |
| Lights.OmniLight.GetLightToProjectionMatrix | MAGE/Code/Engine/Rendering/scene/light/omni_light.hpp:310-327 | the projection exists iff the planes differ; then the near clipping plane maps to depth 0 and the range to depth 1, or the other way round with the inverted Z-buffer |
| Lights.AmbientLight.constructor | MAGE/Code/Engine/Rendering/scene/light/ambient_light.hpp:35 | an ambient light holds the base colour and the absolute value of the radiance |
| Lights.AmbientLight.GetRadiance | MAGE/Code/Engine/Rendering/scene/light/ambient_light.hpp:115-117 | the radiance is never negative |
| Lights.AmbientLight.SetRadiance | MAGE/Code/Engine/Rendering/scene/light/ambient_light.hpp:125-127 | stores the absolute value of the radiance and keeps the colour |
| Lights.AmbientLight.GetRadianceSpectrum | MAGE/Code/Engine/Rendering/scene/light/ambient_light.hpp:135-138 | the base colour scaled by the radiance |
| Lights.AmbientLight.SetBaseColor | MAGE/Code/Engine/Rendering/scene/light/ambient_light.hpp:93-95 | writing through the base-colour reference changes the colour and keeps the radiance |
| Lights.OmniLight.GetRange | MAGE/Code/Engine/Rendering/scene/light/omni_light.hpp:203-205 | the range is the far entry of the clipping planes |
| Lights.OmniLight.GetClippingPlanes | MAGE/Code/Engine/Rendering/scene/light/omni_light.hpp:285-287 | returns the stored (near, far) pair unchanged |

## Left out

- Direct3D and DXGI work is not modelled. This covers device, shader, buffer and texture creation, every bind and draw, and the output manager's buffers. Each call is a trace event, and nothing is modelled about what the GPU does with it.
- Floating-point rounding is not modelled: floats are reals. The constants XM_PI and XM_1DIVPI are exact reals, so INV_PI is exactly 1 / PI and the omni light's power round trip holds exactly.
- Matrix and quaternion arithmetic is symbolic. XMMatrix products, inversion, transposition, XMQuaternionNormalize and XMQuaternionRotationNormal are recorded as factors, not computed.
- The `asinf`/`acosf` angle of SetRotationAroundDirection is not modelled; the rotation constructor is passed in.
- BoundingFrustum::Cull, AABB::MinPointAlongNormal/MaxPointAlongNormal and the frustum's plane normalization (XMPlaneNormalize, which needs a square root) are parameters. The model assumes nothing about them beyond what each lemma requires.
- BoundingVolumes.SphereEnclosesBox and BoundingVolumes.SphereEnclosesSphere take BoundingSphere::Encloses(point) or EnclosesStrict(point) as the parameter `enclosesPoint`. That point test's body is not part of this model, so the two functions are stated for any point test.
- ClampAngleRadians and GetResolutionMultiplier are parameters. Their bodies are not part of this model.
- TRANSPARENCY_SHADOW_THRESHOLD is a constructor argument of the depth pass. Its value is not part of this model.
- The scene transform's SetDirty marks only the transform's own world caches. Propagation to child nodes is not part of this model.
- SceneTransform.Local, SceneTransform.LocalToParentOf, SceneTransform.ParentToLocalOf, SceneTransform.Transform.AddAndClampRotationX, SceneTransform.Transform.AddAndClampRotationY, SceneTransform.Transform.AddAndClampRotationZ and SceneTransform.Transform.AddAndClampRotation: the scene transform stores an SETTransform3D (transform.hpp:1497), a type no source file of this model defines. The model takes it to be the Euler-angle transform of MAGE/MAGE/src/math/transform.hpp: a translation, three rotation angles and a scale, whose object-to-parent matrix is scale, then rotation about z, x and y, then translation (MathTransform.ObjectToParentOf), and whose AddAndClampRotationX(x, min, max) adds x to the one angle and then clamps that angle to [min, max]. If SETTransform3D differs, these members and every world-matrix statement built on them differ too.
- SceneTransform.Transform.UpdateObjectToWorldMatrix and SceneTransform.Transform.UpdateWorldToObjectMatrix: the header only declares them and their bodies are not part of this model. The model assumes the object-to-world matrix is the local object-to-parent matrix followed by the owner's parent-to-world matrix, and the world-to-object matrix is its symbolic inverse. The owner's matrix is an uninterpreted factor.
- OmniLight::UpdateBoundingVolumes, which SetRange and SetClippingPlanes call, is not part of this model. The light's bounding volumes are therefore not modelled.
- File I/O is not modelled: ReadBinaryFile, BinaryReader::ReadFromFile and BigEndianBinaryReader::ReadFromFile.
- ReadData is pure virtual, and the bodies of Read<T> and ReadArray<T> live in a .tpp file that is not part of this model. The model stops at the cursor that ReadChars moves.
- Lights.DepthProjection: the single-precision division by zero when the two clipping planes coincide is modelled as no projection (None) rather than as infinities.
- Worlds.Model.constructor and Worlds.PointLight.constructor: the Model and PointLight classes are reduced to their names, which is all the world compares when it looks one up or removes one; their geometry, materials and light parameters belong to other classes that are not part of this model.
- World::Render2D and World::Render3D, which forward to the scripts and the renderer, are not modelled.
- SpriteBatch::Draw is a trace of the draws requested. DrawString's own overloads and the batch's sorting and flushing are not part of this model.
- SpriteImage's texture is reduced to whether it has a shader resource view; the view object itself is not modelled.
- The engine's editor UI (ImGui) and platform code are not modelled.
- MathTransform.CachedMatricesAgree, SqtTransform.AffineMatricesAgree and SceneTransform.WorldMatricesAgree state symbolic inverses. The reciprocal scaling the engine builds is a true inverse only when no scale component is zero, and SetScale accepts zero. The GetParentToObjectScaleMatrix getters share this limit.
- The sprite font's whitespace test is iswspace in the C locale. Locale-dependent classification of other characters is not modelled.
- The sprite font's LONG bounds are 32-bit. Float-to-LONG conversion is truncation toward zero, and an out-of-range float is not modelled.
- sprite_font.hpp is not part of this model. SetLineSpacing and SetDefaultCharacter are modelled from their uses in InitializeSpriteFont.
- SpriteFonts.FindGlyph: text is taken to be one code unit per character, as a sequence of Dafny chars (Unicode scalar values). The engine iterates wchar_t, which is a 16-bit UTF-16 code unit on its Direct3D 11 target, and compares each unit with the glyph's 32-bit character. So a character outside the Basic Multilingual Plane is one lookup in the model but two surrogate lookups and two pen advances in the engine, and lone surrogates cannot be written down. Surrogate pairs are not modelled, and the same holds for LettersOf, Step and IsSpace.
- SpriteFonts.DefaultGlyphFor: the body of SetDefaultCharacter is not part of this model. The model assumes the default glyph is the glyph of that character when the font has one, and no default glyph otherwise.
  - An absent character raises no error.
  - Character 0 is treated like any other character and does not mean "no default".
  - GetGlyph therefore falls back to the default only when the default character is in the font.
- OutlineSpriteTexts.PlainText: SpriteText::c_str() is not part of this model. The model assumes the plain text is the concatenation of the strings' characters in order, without their colours.
- The constructor bodies of SpriteImage, SpriteText, OmniLight and AmbientLight are not part of this model. Each model constructor takes the fields it sets.
- The S1QT and SQT default rotation (1, 0, 0, 0) is kept lane for lane. Whether those lanes denote the identity rotation depends on DirectXMath's lane order and is not modelled.
- The display configuration's refresh-rate rounding and the renderer's world-buffer reciprocals are not modelled: they are float numerics with no exact model.
- The sRGB and BT.709 colour conversions are not modelled, for the same reason.

## Findings

| source | as written | input that shows it | evidently intended | confidence | as-written member | corrected member |
|---|---|---|---|---|---|---|
| MAGE/MAGE/src/math/geometry/bounding_volume.cpp:41-105 | the AABB-sphere tests compare the sphere's box with the box and accept unless all three axes fail (XMVector3Less in Encloses and Overlaps, XMVector3LessOrEqual in EnclosesStrict and OverlapsStrict) | box [0,10]^3 with the sphere of radius 2 at (1,5,5) for Encloses, and with the sphere of radius 1 at (20,5,5) for Overlaps | reject as soon as one axis fails | not executed | BoundingVolumes.EnclosesSphereAcceptsProtrudingSphere | BoundingVolumes.IntendedTestsUseSphereBox |
| MAGE/MAGE/src/math/geometry/bounding_volume.cpp:434-442 | operator== returns false after the plane loop, and also inside the loop on a mismatch | any frustum compared with itself | true iff all six planes are equal | not executed | BoundingVolumes.BoundingFrustum.EqualsAsWritten | BoundingVolumes.BoundingFrustum.Equals |
| MAGE/MAGE/src/rendering/pass/bounding_volume_pass.cpp:90-94 | the depth state tests the misspelled DISSABLE_INVERTED_Z_BUFFER | a build that defines DISABLE_INVERTED_Z_BUFFER only | the same macro as the depth pass, so both passes agree on the depth comparison | not executed | BoundingVolumePasses.ComparisonMismatchAsWritten | BoundingVolumePasses.BoundingVolumeComparison |
